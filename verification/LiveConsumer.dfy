/** The consumerLoop of benchmark/concurrent_matching_engine.cpp over the live engine; dequeue answers are its input. */
module LiveConsumer {
  import opened Orders
  import opened QueueModel
  import opened ConcurrentEngine
  import opened LiveEngine
  import EngineSpec

  method Dispatch(engine: MatchingEngine, ev: Event, timestamp: int)
    requires engine.Valid()
    modifies engine, engine.book, engine.book.Placed()
    ensures engine.Valid() && fresh(engine.book.Placed() - old(engine.book.Placed()))
    ensures engine.View() == ConcurrentEngine.Dispatch(old(engine.View()), ev, timestamp)
  {
    hide MatchingEngine.View, MatchingEngine.Valid, LiveBook.OrderBook.Placed, EngineSpec.Step;
    if ev.kind == SUBMIT_LIMIT {
      var id := engine.SubmitLimit(if ev.side == 'B' then Buy else Sell, ev.price, ev.quantity, timestamp);
    } else if ev.kind == SUBMIT_MARKET {
      engine.SubmitMarket(if ev.side == 'B' then Buy else Sell, ev.quantity, timestamp);
    } else if ev.kind == CANCEL {
      var ok := engine.CancelOrder(ev.orderId);
    }
  }

  method ConsumerLoop(engine: MatchingEngine, answers: seq<Answer<Event>>, clock: seq<int>)
    returns (processed: nat, stopped: bool)
    requires engine.Valid() && |answers| == |clock|
    modifies engine, engine.book, engine.book.Placed()
    ensures engine.Valid()
    ensures Server(engine.View(), processed, stopped) == ServeAll(Server(old(engine.View()), 0, false), answers, clock)
  {
    hide MatchingEngine.View, MatchingEngine.Valid, ConcurrentEngine.Dispatch;
    processed, stopped := 0, false;
    ghost var start := Server(engine.View(), 0, false);
    var i := 0;
    while i < |answers|
      invariant i <= |answers| && engine.Valid() && !stopped
      invariant forall o | o in engine.book.Placed() :: o in old(engine.book.Placed()) || fresh(o)
      invariant Server(engine.View(), processed, stopped) == ServeAll(start, answers[..i], clock[..i])
    {
      assert answers[..i + 1][..i] == answers[..i] && clock[..i + 1][..i] == clock[..i];
      if answers[i].Dequeued? && answers[i].value.Some? {
        var ev := answers[i].value.value;
        if ev.kind == SENTINEL {
          stopped := true;
          ServeAllStopped(start, answers, clock, i + 1);
          return;
        }
        Dispatch(engine, ev, clock[i]);
        processed := processed + 1;
      }
      i := i + 1;
    }
    assert answers[..i] == answers && clock[..i] == clock;
  }

  /** Nothing after the sentinel is looked at. */
  lemma {:induction false} ServeAllStopped(s: Server, answers: seq<Answer<Event>>, clock: seq<int>, i: nat)
    requires |answers| == |clock| && i <= |answers| && ServeAll(s, answers[..i], clock[..i]).stopped
    ensures ServeAll(s, answers, clock) == ServeAll(s, answers[..i], clock[..i])
    decreases |answers|
  {
    if i == |answers| {
      assert answers[..i] == answers && clock[..i] == clock;
    } else {
      var k := |answers| - 1;
      assert answers[..k][..i] == answers[..i] && clock[..k][..i] == clock[..i];
      ServeAllStopped(s, answers[..k], clock[..k], i);
    }
  }
}
