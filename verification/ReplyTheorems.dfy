/** What a request is answered: by which event, and with what. */
module ReplyTheorems {
  import opened Engine
  import opened Cluster
  import opened ClusterTheorems

  // ---------- with what ----------

  /** A resolved submission brings exactly the trades that the engine made for
      it, and succeeds exactly when the engine accepted it; a resolved cancel
      brings none and succeeds exactly when the engine found the order. */
  lemma ResolvedSays(shards: Shards, s: State, id: nat) returns (k: nat)
    requires Inv(shards, s) && id in s.outcomes && s.outcomes[id].Resolved?
    ensures k < |s.log| && s.log[k].id == id && id in s.issued && s.log[k].command == s.issued[id]
    ensures var (c, r, result) := (s.issued[id], s.log[k].response, s.outcomes[id].result);
            if c.Submitting? then
              && r.Submitted? && (result.success <==> r.reply.Accepted?)
              && result.trades == if r.reply.Accepted? then r.reply.effect.trades else []
            else
              && r.Cancelled? && (result.success <==> r.order.Some?) && result.trades == []
  {
    hide Inv, GoodEngine, Submit, CancelIn;
    k := ResolvedExecutedOnce(shards, s, id);
    var t := s.log[k];
    Owned(shards, s, k);
    if t.command.Cancelling? {
      FoundOrNot(WorkerAfter(shards, s.log[..k], t.worker), t.command);
    }
  }

  lemma FoundOrNot(e: EngineState, c: Command)
    requires Admissible(e, c) && c.Cancelling? && c.symbol in e.books
    ensures Execute(e, c).1.Cancelled?
  {
    hide GoodEngine;
  }

  lemma Owned(shards: Shards, s: State, k: nat)
    requires Inv(shards, s) && k < |s.log|
    ensures var t := s.log[k];
            && t.id in s.issued && t.worker in shards
            && t.command.Symbol() in WorkerAfter(shards, s.log[..k], t.worker).books
  {
    hide GoodEngine, Execute, ResultsOk, RequestsOk, OrdersOk;
    assert EntryOk(shards, s, k);
    var w := s.log[k].worker;
    assert WorkerOk(shards, s.log, w, s.workers[w]);
    SameSymbols(shards, s, w, k);
  }

  lemma {:induction false} SameSymbols(shards: Shards, s: State, w: string, k: nat)
    requires LogOk(shards, s) && w in shards && k <= |s.log|
    ensures WorkerAfter(shards, s.log[..k], w).books.Keys == shards[w]
    decreases k
  {
    hide GoodEngine, Execute, Submittable;
    if k > 0 {
      SameSymbols(shards, s, w, k - 1);
      assert s.log[..k][..k - 1] == s.log[..k - 1];
      assert EntryOk(shards, s, k - 1);
      if s.log[k - 1].worker == w {
        ExecuteKeeps(WorkerAfter(shards, s.log[..k - 1], w), s.log[k - 1].command);
      }
    }
  }

  // ---------- by which event ----------

  /** The events that settle a pending request. */
  predicate Answers(event: Move, id: nat) {
    event == HandleReply(id) || event == Timeout(id) || event == Shutdown
  }

  lemma OneAnswers(shards: Shards, s: State, event: Move, id: nat)
    requires RequestsOk(s) && Enabled(shards, s, event) && id in s.pending
    ensures var s' := Next(shards, s, event);
            && (Answers(event, id) <==> id in s'.outcomes) && (Answers(event, id) <==> id !in s'.pending)
            && (event == Timeout(id) ==> s'.outcomes[id] == TimedOut)
            && (event == Shutdown ==> s'.outcomes[id] == ShutDown)
            && (event == HandleReply(id) ==> id in s.replies && s'.outcomes[id] == Resolved(s.replies[id]))
  {
    hide Perform, Proper;
  }

  /** A pending request is settled by the first of its reply, its timeout and a
      shutdown to come, and by nothing else: it stays pending until one does. */
  lemma {:induction false} FirstAnswerCounts(shards: Shards, s: State, events: seq<Move>, id: nat) returns (k: nat)
    requires Inv(shards, s) && EnabledRun(shards, s, events) && id in s.pending
    ensures k <= |events| && EnabledRun(shards, s, events[..k])
    ensures forall i :: 0 <= i < k ==> !Answers(events[i], id)
    ensures k < |events| ==> Answers(events[k], id)
    ensures var (before, end) := (RunEvents(shards, s, events[..k]), RunEvents(shards, s, events));
            if k == |events| then id in end.pending && id !in end.outcomes
            else
              && id !in end.pending && id in end.outcomes
              && match events[k]
                 case Timeout(_) => end.outcomes[id] == TimedOut
                 case Shutdown => end.outcomes[id] == ShutDown
                 case _ => id in before.replies && end.outcomes[id] == Resolved(before.replies[id])
    decreases |events|
  {
    hide Inv, Next, Enabled;
    k := 0;
    assert events[..0] == [];
    if events == [] {
      PendingIsOpen(shards, s, id);
    } else {
      var s1 := Next(shards, s, events[0]);
      PendingIsOpen(shards, s, id);
      OneAnswers(shards, s, events[0], id);
      NextKeeps(shards, s, events[0]);
      if Answers(events[0], id) {
        SettledOnce(shards, s1, events[1..], id);
      } else {
        var j := FirstAnswerCounts(shards, s1, events[1..], id);
        k := j + 1;
        assert events[..k][1..] == events[1..][..j] && events[..k][0] == events[0];
      }
    }
  }

  lemma PendingIsOpen(shards: Shards, s: State, id: nat)
    requires Inv(shards, s)
    ensures RequestsOk(s) && (id in s.pending ==> id !in s.outcomes)
  {
  }

  lemma WorkersAndReplies(shards: Shards, s: State, id: nat)
    requires Inv(shards, s)
    ensures WorkersOk(shards, s) && (id in s.replies ==> id !in s.inFlight)
  {
    hide EntryOk, WorkerOk, OrdersOk;
    if id in s.replies {
      assert AnswersOwn(s, id, s.replies[id]);
      assert id in LoggedIds(s.log);
    }
  }

  // ---------- on the way ----------

  /** A request issued for a symbol of a worker is on its way there: unless it is
      lost it can be delivered, whatever else happens in between. */
  lemma {:induction false} StillOnItsWay(shards: Shards, s: State, events: seq<Move>, id: nat, w: string)
    requires Inv(shards, s) && EnabledRun(shards, s, events) && Enabled(shards, s, Deliver(id, w))
    requires forall e :: e in events ==> e != LoseCommand(id) && !(e.Deliver? && e.id == id)
    ensures Enabled(shards, RunEvents(shards, s, events), Deliver(id, w))
    decreases |events|
  {
    hide Inv, Next;
    if events != [] {
      NextKeeps(shards, s, events[0]);
      WorkersAndReplies(shards, s, id);
      assert events[0] in events;
      OneOnItsWay(shards, s, events[0], id, w);
      StillOnItsWay(shards, Next(shards, s, events[0]), events[1..], id, w);
    }
  }

  lemma OneOnItsWay(shards: Shards, s: State, e: Move, id: nat, w: string)
    requires WorkersOk(shards, s) && Enabled(shards, s, e) && Enabled(shards, s, Deliver(id, w))
    requires e != LoseCommand(id) && !(e.Deliver? && e.id == id)
    ensures Enabled(shards, Next(shards, s, e), Deliver(id, w))
  {
    hide Perform, Proper, WorkerOk;
  }

  /** A new request can be delivered to the worker of its symbol, and its reply
      can then be handled; either may be lost instead, and the request may time
      out at any moment in between. */
  lemma IssuedThenAnswered(shards: Shards, s: State, id: nat, c: Command, w: string)
    requires Inv(shards, s) && Enabled(shards, s, Issue(id, c)) && w in shards && c.Symbol() in shards[w]
    ensures var s1 := Next(shards, s, Issue(id, c));
            && id in s1.pending && Enabled(shards, s1, Deliver(id, w))
            && Enabled(shards, s1, LoseCommand(id)) && Enabled(shards, s1, Timeout(id))
            && var s2 := Next(shards, s1, Deliver(id, w));
               id in s2.pending && Enabled(shards, s2, HandleReply(id))
               && Enabled(shards, s2, LoseReply(id)) && Enabled(shards, s2, Timeout(id))
  {
    hide Perform, Proper, WorkerOk, LogOk, ResultsOk, OrdersOk;
  }

  /** A reply stays until it is handled or lost. */
  lemma {:induction false} ReplyStays(shards: Shards, s: State, events: seq<Move>, id: nat)
    requires Inv(shards, s) && EnabledRun(shards, s, events) && id in s.replies
    requires forall e :: e in events ==> e != HandleReply(id) && e != LoseReply(id)
    ensures id in RunEvents(shards, s, events).replies
    ensures RunEvents(shards, s, events).replies[id] == s.replies[id]
    decreases |events|
  {
    hide Inv, Next;
    if events != [] {
      NextKeeps(shards, s, events[0]);
      WorkersAndReplies(shards, s, id);
      assert events[0] in events;
      OneReplyStays(shards, s, events[0], id);
      assert forall e :: e in events[1..] ==> e in events;
      ReplyStays(shards, Next(shards, s, events[0]), events[1..], id);
    }
  }

  lemma OneReplyStays(shards: Shards, s: State, e: Move, id: nat)
    requires Enabled(shards, s, e) && id in s.replies && id !in s.inFlight
    requires e != HandleReply(id) && e != LoseReply(id)
    ensures id in Next(shards, s, e).replies && Next(shards, s, e).replies[id] == s.replies[id]
  {
    hide Perform, Proper;
  }
}
