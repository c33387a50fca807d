/** Router and worker as objects, each step simulating one of the state machine. */
module ClusterObjects {
  import opened Types
  import opened Engine
  import opened BookObjects
  import opened MatchingEngines
  import opened Cluster

  class EngineWorker {
    const workerId: string
    const symbols: set<string>
    const engine: MatchingEngine
    var ordersProcessed: nat

    ghost predicate Valid()
      reads this, engine, engine.Repr()
    {
      engine.Valid() && this !in engine.Repr()
    }

    /** The worker's engine is the one of the state machine. */
    ghost predicate Shows(s: State)
      reads this, engine, engine.Repr()
    {
      Valid() && workerId in s.workers && engine.State() == s.workers[workerId]
    }

    constructor (workerId: string, symbols: set<string>)
      ensures Valid() && fresh(engine) && fresh(engine.Repr()) && engine.State() == EmptyEngine(symbols)
      ensures this.workerId == workerId && this.symbols == symbols && ordersProcessed == 0
    {
      hide MatchingEngine.Valid;
      this.workerId, this.symbols, ordersProcessed := workerId, symbols, 0;
      engine := new MatchingEngine(symbols);
    }

    /** Execute one delivered command; the answer goes to its reply channel. */
    method HandleCommand(command: Command) returns (result: EngineResult)
      requires Valid() && Admissible(engine.State(), command)
      modifies this, engine, engine.Repr()
      ensures Valid() && fresh(engine.Repr() - old(engine.Repr()))
      ensures (engine.State(), result) == var (e, r) := Perform(old(engine.State()), command); (e, ResultOf(r))
      ensures var response := Perform(old(engine.State()), command).1;
              var accepted := response.Submitted? && response.reply.Accepted?;
              && result.trades == (if accepted then response.reply.effect.trades else [])
              && (result.success <==> accepted || (response.Cancelled? && response.order.Some?))
      ensures ordersProcessed == old(ordersProcessed) + if command.Submitting? then 1 else 0
    {
      hide MatchingEngine.Valid, GoodEngine, Submit, CancelIn, Submittable;
      match command {
        case Submitting(data) =>
          ordersProcessed := ordersProcessed + 1;
          var order := new Order(data);
          var rejection, trades;
          ghost var matched, stops, added;
          rejection, trades, matched, stops, added := engine.SubmitOrder(order);
          result := EngineResult(rejection.None?, trades);
        case Cancelling(symbol, orderId) =>
          var supported, cancelled := engine.CancelOrder(symbol, orderId);
          result := EngineResult(supported && cancelled != null, []);
      }
    }

    /** A delivery to this worker is a step of the cluster. */
    method Deliver(id: nat, command: Command, ghost shards: Shards, ghost s: State) returns (result: EngineResult)
      requires Shows(s) && Inv(shards, s) && Enabled(shards, s, Move.Deliver(id, workerId)) && command == s.issued[id]
      modifies this, engine, engine.Repr()
      ensures var s' := Next(shards, s, Move.Deliver(id, workerId));
              Shows(s') && s'.replies == s.replies[id := result]
    {
      hide MatchingEngine.Valid, Inv, Perform, ResultOf, Admissible;
      DeliveredIsAdmissible(shards, s, id, workerId);
      result := HandleCommand(command);
    }
  }

  /** The promise a caller waits on, settled by whichever comes first. */
  class Request {
    var settlement: Option<Settlement>

    constructor ()
      ensures settlement == None
    {
      settlement := None;
    }
  }

  /** Every promise shows how its request was settled, and no two requests share one. */
  ghost predicate Promised(requests: map<nat, Request>, outcomes: map<nat, Settlement>)
    reads requests.Values
  {
    && (forall i, j :: i in requests && j in requests && i != j ==> requests[i] != requests[j])
    && outcomes.Keys <= requests.Keys
    && forall i :: i in requests ==> requests[i].settlement == if i in outcomes then Some(outcomes[i]) else None
  }

  lemma OneMore(requests: map<nat, Request>, outcomes: map<nat, Settlement>, id: nat, request: Request)
    requires Promised(requests, outcomes) && id !in requests && request !in requests.Values
             && request.settlement == None
    ensures Promised(requests[id := request], outcomes) && id !in outcomes
  {
  }

  class EngineClusterRouter {
    var pendingRequests: map<nat, Request>

    /** All requests ever issued, and how the settled ones were settled. */
    ghost var requests: map<nat, Request>
    ghost var outcomes: map<nat, Settlement>

    ghost predicate Valid()
      reads this, requests.Values
    {
      && Promised(requests, outcomes) && pendingRequests.Keys == requests.Keys - outcomes.Keys
      && forall i :: i in pendingRequests ==> pendingRequests[i] == requests[i]
    }

    /** The router's part of the state machine. */
    ghost predicate Shows(s: State)
      reads this, requests.Values
    {
      Valid() && requests.Keys == s.issued.Keys && pendingRequests.Keys == s.pending && outcomes == s.outcomes
    }

    constructor ()
      ensures Valid() && requests == map[] && outcomes == map[]
    {
      pendingRequests, requests, outcomes := map[], map[], map[];
    }

    /** Issue a request under a fresh correlation id. */
    method Issue(id: nat, ghost command: Command, ghost shards: Shards, ghost s: State) returns (request: Request)
      requires Shows(s) && Enabled(shards, s, Move.Issue(id, command))
      modifies this
      ensures Shows(Next(shards, s, Move.Issue(id, command)))
      ensures fresh(request) && request.settlement == None && requests == old(requests)[id := request]
    {
      hide Proper, Perform, Promised;
      request := new Request();
      OneMore(requests, outcomes, id, request);
      pendingRequests := pendingRequests[id := request];
      requests := requests[id := request];
    }

    /** Settle a request that is still pending. */
    method SettleRequest(id: nat, settlement: Settlement)
      requires Valid() && id in pendingRequests
      modifies this, requests.Values
      ensures Valid() && requests == old(requests) && outcomes == old(outcomes)[id := settlement]
      ensures pendingRequests.Keys == old(pendingRequests).Keys - {id}
    {
      var pending := pendingRequests[id];
      pendingRequests := pendingRequests - {id};
      SetPromise(pending, id, settlement);
    }

    /** A reply arrives: only a pending request hears of it. */
    method HandleReply(id: nat, result: EngineResult, ghost shards: Shards, ghost s: State)
      requires Shows(s) && Enabled(shards, s, Move.HandleReply(id)) && result == s.replies[id]
      modifies this, requests.Values
      ensures Shows(Next(shards, s, Move.HandleReply(id))) && requests == old(requests)
    {
      if id !in pendingRequests { return; }
      SettleRequest(id, Resolved(result));
    }

    /** The timer of a request fires; a settled request has none. */
    method OnTimeout(id: nat, ghost shards: Shards, ghost s: State)
      requires Shows(s) && Enabled(shards, s, Move.Timeout(id))
      modifies this, requests.Values
      ensures Shows(Next(shards, s, Move.Timeout(id))) && requests == old(requests)
    {
      SettleRequest(id, TimedOut);
    }

    /** Reject everything that is still pending. */
    method Shutdown(ghost shards: Shards, ghost s: State)
      requires Shows(s)
      modifies this, requests.Values
      ensures Shows(Next(shards, s, Move.Shutdown)) && requests == old(requests) && pendingRequests == map[]
    {
      hide Promised, Perform, Proper;
      RejectAll();
      assert outcomes == Next(shards, s, Move.Shutdown).outcomes;
      pendingRequests := map[];
      assert Promised(requests, outcomes);
    }

    method RejectAll()
      requires Valid()
      modifies requests.Values, `outcomes
      ensures Promised(requests, outcomes) && pendingRequests.Keys <= requests.Keys
      ensures outcomes == map i | i in old(outcomes).Keys + pendingRequests.Keys ::
                            if i in pendingRequests.Keys then ShutDown else old(outcomes)[i]
    {
      hide Promised;
      ghost var before := outcomes;
      var todo := pendingRequests.Keys;
      while todo != {}
        invariant Promised(requests, outcomes)
        invariant todo <= pendingRequests.Keys && outcomes.Keys == before.Keys + (pendingRequests.Keys - todo)
        invariant forall i :: i in outcomes ==> outcomes[i] == if i in pendingRequests.Keys then ShutDown else before[i]
        decreases todo
      {
        var id :| id in todo;
        SetPromise(pendingRequests[id], id, ShutDown);
        todo := todo - {id};
      }
    }

    /** Resolve or reject a promise. */
    method SetPromise(request: Request, ghost id: nat, settlement: Settlement)
      requires Promised(requests, outcomes) && id in requests && requests[id] == request
      modifies request, `outcomes
      ensures Promised(requests, outcomes) && outcomes == old(outcomes)[id := settlement]
    {
      request.settlement := Some(settlement);
      outcomes := outcomes[id := settlement];
    }
  }
}
