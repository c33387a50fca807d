/** The request/reply protocol between router and workers, as a state machine. */
module Cluster {
  import opened Types
  import opened Engine
  import opened EngineTheorems

  /** Symbols of each worker. */
  type Shards = map<string, set<string>>

  datatype EngineResult = EngineResult(success: bool, trades: seq<TradeExecution>)

  datatype Settlement = Resolved(result: EngineResult) | TimedOut | ShutDown

  /** One executed command. */
  datatype Entry = Entry(id: nat, command: Command, worker: string, response: Response)

  datatype State = State(
    issued: map<nat, Command>, pending: set<nat>, outcomes: map<nat, Settlement>,
    inFlight: set<nat>, workers: map<string, EngineState>, replies: map<nat, EngineResult>, log: seq<Entry>)

  datatype Move =
    | Issue(id: nat, command: Command)
    | Deliver(id: nat, worker: string)
    | LoseCommand(id: nat)
    | HandleReply(id: nat)
    | LoseReply(id: nat)
    | Timeout(id: nat)
    | Shutdown

  ghost predicate Disjoint(shards: Shards) {
    forall v, w :: v in shards && w in shards && v != w ==> shards[v] !! shards[w]
  }

  function AllSymbols(shards: Shards): set<string> {
    set w, s | w in shards && s in shards[w] :: s
  }

  function ResultOf(response: Response): EngineResult {
    match response
    case Submitted(Accepted(effect)) => EngineResult(true, effect.trades)
    case Submitted(Rejected(_)) => EngineResult(false, [])
    case Cancelled(order) => EngineResult(order.Some?, [])
    case Unsupported => EngineResult(false, [])
  }

  /** One engine step; the invariant shows that every delivered command is admissible. */
  ghost function Perform(e: EngineState, c: Command): (EngineState, Response) {
    if Admissible(e, c) then Execute(e, c) else (e, Unsupported)
  }

  // ---------- steps ----------

  /** A proper new order under an order id no other request uses. */
  ghost predicate Proper(issued: map<nat, Command>, c: Command) {
    c.Submitting? ==>
      && c.order.id.Client? && c.order.filledQuantity == 0.0 && c.order.hiddenQty == None && c.order.status == PENDING
      && forall i :: i in issued && issued[i].Submitting? ==> issued[i].order.id != c.order.id
  }

  ghost predicate Enabled(shards: Shards, s: State, event: Move) {
    match event
    case Issue(id, c) => id !in s.issued && Proper(s.issued, c)
    case Deliver(id, w) =>
      id in s.inFlight && id in s.issued && w in shards && w in s.workers && s.issued[id].Symbol() in shards[w]
    case LoseCommand(id) => id in s.inFlight
    case HandleReply(id) => id in s.replies
    case LoseReply(id) => id in s.replies
    case Timeout(id) => id in s.pending
    case Shutdown => true
  }

  /** Settle a pending request; a request that is not pending is left alone. */
  function Settle(s: State, id: nat, settlement: Settlement): State {
    if id in s.pending then s.(pending := s.pending - {id}, outcomes := s.outcomes[id := settlement]) else s
  }

  ghost function Next(shards: Shards, s: State, event: Move): State
    requires Enabled(shards, s, event)
  {
    match event
    case Issue(id, c) => s.(issued := s.issued[id := c], pending := s.pending + {id}, inFlight := s.inFlight + {id})
    case Deliver(id, w) =>
      var (engine, response) := Perform(s.workers[w], s.issued[id]);
      s.(inFlight := s.inFlight - {id}, workers := s.workers[w := engine],
         replies := s.replies[id := ResultOf(response)], log := s.log + [Entry(id, s.issued[id], w, response)])
    case LoseCommand(id) => s.(inFlight := s.inFlight - {id})
    case HandleReply(id) => Settle(s, id, Resolved(s.replies[id])).(replies := s.replies - {id})
    case LoseReply(id) => s.(replies := s.replies - {id})
    case Timeout(id) => Settle(s, id, TimedOut)
    case Shutdown => s.(pending := {}, outcomes := map i | i in s.outcomes.Keys + s.pending ::
                                                     if i in s.pending then ShutDown else s.outcomes[i])
  }

  function Opening(shards: Shards): State {
    State(map[], {}, map[], {}, map w | w in shards :: EmptyEngine(shards[w]), map[], [])
  }

  // ---------- the invariant ----------

  function LoggedIds(log: seq<Entry>): set<nat> {
    set k | 0 <= k < |log| :: log[k].id
  }

  /** The symbol each executed order was submitted for. */
  function Origin(log: seq<Entry>): map<OrderId, string> {
    if log == [] then map[]
    else
      var (rest, last) := (Origin(log[..|log| - 1]), log[|log| - 1].command);
      if last.Submitting? then rest[last.order.id := last.order.symbol] else rest
  }

  /** State of one worker after the commands of a log that were delivered to it. */
  ghost function WorkerAfter(shards: Shards, log: seq<Entry>, w: string): EngineState
    requires w in shards
  {
    if log == [] then EmptyEngine(shards[w])
    else
      var e := WorkerAfter(shards, log[..|log| - 1], w);
      if log[|log| - 1].worker == w then Perform(e, log[|log| - 1].command).0 else e
  }

  /** Requests: pending exactly when issued and not settled. */
  ghost predicate RequestsOk(s: State) {
    s.pending == s.issued.Keys - s.outcomes.Keys && s.outcomes.Keys <= s.issued.Keys
  }

  ghost predicate EntryOk(shards: Shards, s: State, k: nat)
    requires k < |s.log|
  {
    var t := s.log[k];
    && t.id in s.issued && t.command == s.issued[t.id]
    && t.worker in shards && t.command.Symbol() in shards[t.worker]
    && var before := WorkerAfter(shards, s.log[..k], t.worker);
       Admissible(before, t.command) && t.response == Execute(before, t.command).1
  }

  /** Every command is executed at most once, by the worker of its symbol. */
  ghost predicate LogOk(shards: Shards, s: State) {
    && (forall k :: 0 <= k < |s.log| ==> EntryOk(shards, s, k))
    && (forall j, k :: 0 <= j < k < |s.log| ==> s.log[j].id != s.log[k].id)
    && s.inFlight <= s.issued.Keys && s.inFlight !! LoggedIds(s.log)
  }

  ghost predicate AnswersOwn(s: State, id: nat, result: EngineResult) {
    exists k :: 0 <= k < |s.log| && s.log[k].id == id && result == ResultOf(s.log[k].response)
  }

  /** Every reply and every resolved request carries the result of its own command. */
  ghost predicate ResultsOk(s: State) {
    && (forall id :: id in s.replies ==> AnswersOwn(s, id, s.replies[id]))
    && forall id :: id in s.outcomes && s.outcomes[id].Resolved? ==> AnswersOwn(s, id, s.outcomes[id].result)
  }

  /** A worker's engine is sound and is what its part of the log makes of it. */
  ghost predicate WorkerOk(shards: Shards, log: seq<Entry>, w: string, e: EngineState)
    requires w in shards
  {
    && e == WorkerAfter(shards, log, w)
    && GoodEngine(e) && e.books.Keys == shards[w] && OnlyUses(e, Origin(log).Keys)
  }

  ghost predicate WorkersOk(shards: Shards, s: State) {
    s.workers.Keys == shards.Keys && forall w :: w in shards ==> WorkerOk(shards, s.log, w, s.workers[w])
  }

  /** Orders of different requests have different ids. */
  ghost predicate OrdersOk(issued: map<nat, Command>) {
    && (forall i :: i in issued && issued[i].Submitting? ==>
          var o := issued[i].order;
          o.id.Client? && o.filledQuantity == 0.0 && o.hiddenQty == None && o.status == PENDING)
    && forall i, j :: i in issued && j in issued && i != j && issued[i].Submitting? && issued[j].Submitting? ==>
         issued[i].order.id != issued[j].order.id
  }

  ghost predicate Inv(shards: Shards, s: State) {
    && Disjoint(shards) && RequestsOk(s) && LogOk(shards, s) && ResultsOk(s) && WorkersOk(shards, s)
    && OrdersOk(s.issued)
  }

  // ---------- every step keeps it ----------

  lemma EmptyIsSound(symbols: set<string>)
    ensures GoodEngine(EmptyEngine(symbols)) && OnlyUses(EmptyEngine(symbols), {})
  {
  }

  lemma OpeningInv(shards: Shards)
    requires Disjoint(shards)
    ensures Inv(shards, Opening(shards))
  {
    hide GoodEngine, OnlyUses, AnswersOwn, EntryOk;
    var s := Opening(shards);
    forall w | w in shards ensures WorkerOk(shards, [], w, s.workers[w]) {
      EmptyIsSound(shards[w]);
      assert Origin([]).Keys == {};
    }
  }

  /** Where an executed order comes from. */
  lemma {:induction false} OriginFrom(log: seq<Entry>, id: OrderId) returns (k: nat)
    requires id in Origin(log)
    ensures k < |log| && log[k].command.Submitting?
    ensures log[k].command.order.id == id && log[k].command.order.symbol == Origin(log)[id]
  {
    var n := |log| - 1;
    var last := log[n].command;
    if last.Submitting? && last.order.id == id {
      k := n;
    } else {
      k := OriginFrom(log[..n], id);
    }
  }

  lemma {:induction false} NotInOrigin(log: seq<Entry>, id: OrderId)
    requires forall k :: 0 <= k < |log| && log[k].command.Submitting? ==> log[k].command.order.id != id
    ensures id !in Origin(log)
  {
    if log != [] {
      NotInOrigin(log[..|log| - 1], id);
      assert log[|log| - 1].command.Submitting? ==> log[|log| - 1].command.order.id != id;
    }
  }

  lemma LoggedAreIssued(shards: Shards, s: State)
    requires LogOk(shards, s)
    ensures LoggedIds(s.log) <= s.issued.Keys
  {
    forall id | id in LoggedIds(s.log) ensures id in s.issued {
      var k :| 0 <= k < |s.log| && s.log[k].id == id;
      assert EntryOk(shards, s, k);
    }
  }

  /** A command in flight is admissible at the worker of its symbol. */
  lemma DeliveredIsAdmissible(shards: Shards, s: State, id: nat, w: string)
    requires Inv(shards, s) && Enabled(shards, s, Deliver(id, w))
    ensures var (e, c) := (s.workers[w], s.issued[id]);
            var used := Origin(s.log).Keys + if c.Submitting? then {c.order.id} else {};
            && Admissible(e, c) && GoodEngine(Execute(e, c).0) && Execute(e, c).0.books.Keys == e.books.Keys
            && OnlyUses(Execute(e, c).0, used)
  {
    var (e, c, used) := (s.workers[w], s.issued[id], Origin(s.log).Keys);
    if c.Submitting? {
      forall k | 0 <= k < |s.log| && s.log[k].command.Submitting? ensures s.log[k].command.order.id != c.order.id {
        assert EntryOk(shards, s, k) && s.log[k].id in LoggedIds(s.log);
      }
      NotInOrigin(s.log, c.order.id);
    }
    assert UniqueIds([c], used);
    var used' := UsedNext(e, c, used);
    ExecuteKeeps(e, c);
    if c.Cancelling? {
      assert used' == used == used + {};
    }
  }

  lemma WorkerAfterAppend(shards: Shards, log: seq<Entry>, t: Entry, w: string)
    requires w in shards
    ensures WorkerAfter(shards, log + [t], w)
         == if t.worker == w then Perform(WorkerAfter(shards, log, w), t.command).0 else WorkerAfter(shards, log, w)
  {
    assert (log + [t])[..|log|] == log;
  }

  lemma OriginAppend(log: seq<Entry>, t: Entry)
    ensures Origin(log + [t]).Keys == Origin(log).Keys + if t.command.Submitting? then {t.command.order.id} else {}
  {
    assert (log + [t])[..|log|] == log;
  }

  lemma UsesMore(e: EngineState, used: set<OrderId>, more: set<OrderId>)
    requires OnlyUses(e, used) && used <= more
    ensures OnlyUses(e, more)
  {
  }

  lemma WorkerSteps(shards: Shards, log: seq<Entry>, t: Entry, v: string, e: EngineState)
    requires v in shards && WorkerOk(shards, log, v, e)
    requires v == t.worker ==>
               && Admissible(e, t.command) && GoodEngine(Execute(e, t.command).0)
               && Execute(e, t.command).0.books.Keys == e.books.Keys
               && OnlyUses(Execute(e, t.command).0, Origin(log + [t]).Keys)
    ensures WorkerOk(shards, log + [t], v, if v == t.worker then Perform(e, t.command).0 else e)
  {
    hide GoodEngine, OnlyUses, Execute, Admissible;
    WorkerAfterAppend(shards, log, t, v);
    OriginAppend(log, t);
    UsesMore(e, Origin(log).Keys, Origin(log + [t]).Keys);
  }

  lemma WorkersKept(shards: Shards, s: State, id: nat, w: string)
    requires Inv(shards, s) && Enabled(shards, s, Deliver(id, w))
    ensures WorkersOk(shards, Next(shards, s, Deliver(id, w)))
  {
    hide OnlyUses, GoodEngine, Execute, Admissible, Origin, LogOk, RequestsOk, ResultsOk, OrdersOk, ResultOf,
         WorkerOk, Perform;
    var (t, s') := (Entry(id, s.issued[id], w, Perform(s.workers[w], s.issued[id]).1), Next(shards, s, Deliver(id, w)));
    DeliveredIsAdmissible(shards, s, id, w);
    OriginAppend(s.log, t);
    forall v | v in shards ensures WorkerOk(shards, s'.log, v, s'.workers[v]) {
      WorkerSteps(shards, s.log, t, v, s.workers[v]);
    }
  }

  /** The log only grows: what was true of an entry stays true. */
  lemma EntriesStay(shards: Shards, s: State, s': State)
    requires LogOk(shards, s) && s.log <= s'.log
    requires forall i :: i in s.issued ==> i in s'.issued && s'.issued[i] == s.issued[i]
    ensures forall k :: 0 <= k < |s.log| ==> EntryOk(shards, s', k)
    ensures forall id, result :: AnswersOwn(s, id, result) ==> AnswersOwn(s', id, result)
  {
    forall k | 0 <= k < |s.log| ensures EntryOk(shards, s', k) {
      assert EntryOk(shards, s, k);
      assert s'.log[..k] == s.log[..k];
    }
    forall id, result | AnswersOwn(s, id, result) ensures AnswersOwn(s', id, result) {
      var k :| 0 <= k < |s.log| && s.log[k].id == id && result == ResultOf(s.log[k].response);
      assert s'.log[k] == s.log[k];
    }
  }

  lemma LogKept(shards: Shards, s: State, id: nat, w: string)
    requires Inv(shards, s) && Enabled(shards, s, Deliver(id, w))
    ensures LogOk(shards, Next(shards, s, Deliver(id, w)))
  {
    hide GoodEngine, OnlyUses, RequestsOk, ResultsOk, OrdersOk, ResultOf, Execute, Admissible, Origin, AnswersOwn;
    var s' := Next(shards, s, Deliver(id, w));
    DeliveredIsAdmissible(shards, s, id, w);
    EntriesStay(shards, s, s');
    var n := |s.log|;
    assert s'.log[..n] == s.log;
    assert EntryOk(shards, s', n);
    hide EntryOk, WorkersOk, Perform;
    LoggedMore(s.log, s'.log[n]);
    forall j, k | 0 <= j < k < |s'.log| ensures s'.log[j].id != s'.log[k].id {
      assert k == n ==> s.log[j].id in LoggedIds(s.log);
    }
  }

  lemma LoggedMore(log: seq<Entry>, t: Entry)
    ensures LoggedIds(log + [t]) == LoggedIds(log) + {t.id}
  {
    var l := log + [t];
    assert l[|log|].id == t.id;
    forall id | id in LoggedIds(log) ensures id in LoggedIds(l) {
      var k :| 0 <= k < |log| && log[k].id == id;
      assert l[k].id == id;
    }
  }

  lemma RequestsKept(shards: Shards, s: State, event: Move)
    requires RequestsOk(s) && Enabled(shards, s, event)
    ensures RequestsOk(Next(shards, s, event))
  {
    hide Perform, ResultOf;
  }

  lemma OrdersKept(shards: Shards, s: State, event: Move)
    requires OrdersOk(s.issued) && Enabled(shards, s, event)
    ensures OrdersOk(Next(shards, s, event).issued)
  {
    hide Perform, ResultOf;
  }

  lemma Answers(s: State, k: nat)
    requires k < |s.log|
    ensures AnswersOwn(s, s.log[k].id, ResultOf(s.log[k].response))
  {
  }

  lemma ResultsKept(shards: Shards, s: State, event: Move)
    requires LogOk(shards, s) && ResultsOk(s) && Enabled(shards, s, event)
    ensures ResultsOk(Next(shards, s, event))
  {
    hide Perform, ResultOf, EntryOk, AnswersOwn, LogOk;
    var s' := Next(shards, s, event);
    assert s'.issued.Keys >= s.issued.Keys && s.log <= s'.log;
    EntriesStay(shards, s, s');
    if event.Deliver? {
      var n := |s.log|;
      assert s'.log[n].id == event.id && s'.replies[event.id] == ResultOf(s'.log[n].response);
      Answers(s', n);
    }
  }

  lemma RouterLogKept(shards: Shards, s: State, event: Move)
    requires LogOk(shards, s) && Enabled(shards, s, event) && !event.Deliver?
    ensures LogOk(shards, Next(shards, s, event))
  {
    var s' := Next(shards, s, event);
    EntriesStay(shards, s, s');
    LoggedAreIssued(shards, s);
    hide EntryOk, LoggedIds;
  }

  lemma WorkersSame(shards: Shards, s: State, s': State)
    requires WorkersOk(shards, s) && s'.workers == s.workers && s'.log == s.log
    ensures WorkersOk(shards, s')
  {
    hide GoodEngine, OnlyUses, Origin, WorkerAfter;
  }

  /** Every step of every interleaving keeps the invariant. */
  lemma NextKeeps(shards: Shards, s: State, event: Move)
    requires Inv(shards, s) && Enabled(shards, s, event)
    ensures Inv(shards, Next(shards, s, event))
  {
    hide RequestsOk, OrdersOk, ResultsOk, LogOk, WorkersOk, Perform, Proper;
    RequestsKept(shards, s, event);
    OrdersKept(shards, s, event);
    ResultsKept(shards, s, event);
    if event.Deliver? {
      LogKept(shards, s, event.id, event.worker);
      WorkersKept(shards, s, event.id, event.worker);
    } else {
      RouterLogKept(shards, s, event);
      WorkersSame(shards, s, Next(shards, s, event));
    }
  }
}
