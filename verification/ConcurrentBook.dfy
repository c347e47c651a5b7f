/** Whatever the producers do and however the threads interleave, the book of the concurrent engine stays in order. */
module ConcurrentBook {
  import opened Orders
  import opened BookSpec
  import opened BookInvariants
  import opened UncrossedBook
  import opened EngineSpec
  import opened EngineRuns
  import opened IcebergLimits
  import QueueModel
  import StopCascade
  import opened ConcurrentEngine

  /** Sides sorted and uncrossed, the index exactly the resting orders, every one of them tradable, trades numbered. */
  predicate Orderly(e: Engine) {
    EngineOk(e) && Uncrossed(e.book) && CleanBook(e.book) && NoStrays(e.book)
  }

  lemma DispatchOrderly(e: Engine, ev: Event, timestamp: int)
    requires Orderly(e)
    ensures Orderly(Dispatch(e, ev, timestamp))
  {
    assert Consistent(e.book);
    hide Match, Cancel, EngineOk, Consistent;
    var side := if ev.side == 'B' then Buy else Sell;
    if ev.kind == SUBMIT_LIMIT {
      SubmitOrderly(e, SubmitLimit(side, ev.price, ev.quantity, timestamp));
    } else if ev.kind == SUBMIT_MARKET {
      SubmitOrderly(e, SubmitMarket(side, ev.quantity, timestamp));
    } else if ev.kind == CANCEL {
      StepOk(e, CancelOrder(ev.orderId));
      TidyStepClean(e, CancelOrder(ev.orderId));
      CancelUncrossed(e.book, ev.orderId);
    }
  }

  lemma SubmitOrderly(e: Engine, c: Command)
    requires Orderly(e) && (c.SubmitLimit? || c.SubmitMarket?)
    ensures Orderly(Step(e, c))
  {
    hide Match, Consistent;
    SubmitReady(e, c);
    OthersRestClean(e.book, OrderOf(c, e.nextId));
    StepOk(e, c);
    TidyStepClean(e, c);
    MatchUncrossed(e.book, OrderOf(c, e.nextId));
  }

  lemma {:induction false} ReplayOrderly(evs: seq<Stamped>)
    ensures Orderly(ReplayEvents(NewEngine, evs))
  {
    if evs == [] {
      NewEngineOk();
    } else {
      hide Orderly, Dispatch;
      ReplayOrderly(evs[..|evs| - 1]);
      DispatchOrderly(ReplayEvents(NewEngine, evs[..|evs| - 1]), evs[|evs| - 1].event, evs[|evs| - 1].timestamp);
    }
  }

  /** In every reachable state of every interleaving. */
  lemma {:induction false} AlwaysOrderly(ms: seq<QueueModel.Move<Event>>, clock: seq<int>, i: nat)
    requires Roles(ms, clock) && i <= |ms|
    ensures Orderly(ServerAt(ms, clock, i).engine)
    ensures ServerAt(ms, clock, i).engine.book.pending == []
  {
    hide Orderly;
    ConsumerReplays(ms, clock, i);
    ReplayOrderly(ServedAt(ms, clock, i));
    NoStopsServed(ServedAt(ms, clock, i));
  }

  lemma {:induction false} NoStopsServed(evs: seq<Stamped>)
    ensures ReplayEvents(NewEngine, evs).book.pending == []
  {
    hide MatchOne, Cascade;
    if evs != [] {
      var before, last := ReplayEvents(NewEngine, evs[..|evs| - 1]), evs[|evs| - 1];
      NoStopsServed(evs[..|evs| - 1]);
      NoStopDispatched(before, last.event, last.timestamp);
    }
  }

  lemma NoStopDispatched(e: Engine, ev: Event, timestamp: int)
    requires e.book.pending == []
    ensures Dispatch(e, ev, timestamp).book.pending == []
  {
    hide Match;
    var side := if ev.side == 'B' then Buy else Sell;
    if ev.kind == SUBMIT_LIMIT {
      StopCascade.MatchFollows(e.book, OrderOf(SubmitLimit(side, ev.price, ev.quantity, timestamp), e.nextId));
    } else if ev.kind == SUBMIT_MARKET {
      StopCascade.MatchFollows(e.book, OrderOf(SubmitMarket(side, ev.quantity, timestamp), e.nextId));
    }
  }
}
