/** When a stop waits and when it fires, in the fields of the command that submitted it, and in which order. */
module StopTriggers {
  import opened Orders
  import opened BookSpec
  import opened BookInvariants
  import opened StopCascade
  import opened EngineSpec
  import opened EngineRuns

  lemma {:induction false} SubmittedConcat(e: Engine, cs: seq<Command>, more: seq<Command>)
    ensures StopsSubmitted(e, cs + more) == StopsSubmitted(e, cs) + StopsSubmitted(Run(e, cs), more)
    decreases |cs|
  {
    hide Step, StopOf;
    if cs == [] {
      assert cs + more == more;
    } else {
      assert (cs + more)[1..] == cs[1..] + more;
      SubmittedConcat(Step(e, cs[0]), cs[1..], more);
    }
  }

  lemma {:induction false} SubmittedCons(e: Engine, c: Command, cs: seq<Command>)
    ensures StopsSubmitted(e, [c] + cs) == StopOf(e, c) + StopsSubmitted(Step(e, c), cs)
  {
    hide Step, StopOf;
    assert ([c] + cs)[1..] == cs;
  }

  predicate IdsRise(log: seq<Submitted>) {
    forall i, j | 0 <= i < j < |log| :: log[i].stop.id < log[j].stop.id
  }

  /** The log of a run holds the ids given in it, each after the earlier ones. */
  lemma {:induction false} SubmittedIds(e: Engine, cs: seq<Command>)
    ensures e.nextId <= Run(e, cs).nextId && IdsRise(StopsSubmitted(e, cs))
    ensures forall s | s in StopsSubmitted(e, cs) :: e.nextId <= s.stop.id < Run(e, cs).nextId
    decreases |cs|
  {
    hide Match, Cancel, Modify;
    if cs != [] {
      SubmittedIds(Step(e, cs[0]), cs[1..]);
    }
  }

  /** The stops left over are those of the log that no later trade met. */
  lemma {:induction false} UnmetAre(log: seq<Submitted>, trades: seq<Trade>)
    requires forall s | s in log :: s.since <= |trades|
    ensures forall o | o in Unmet(log, trades) ::
              exists s | s in log :: s.stop == o && !Met(o, trades[s.since..])
    ensures forall s | s in log && !Met(s.stop, trades[s.since..]) :: s.stop in Unmet(log, trades)
  {
    hide Met;
    if log != [] {
      assert log[0] in log && forall s | s in log[1..] :: s in log;
      UnmetAre(log[1..], trades);
    }
  }

  /** The whole log of a run with one stop in the middle, and the place of that stop in it. */
  lemma {:induction false} LogAround(before: seq<Command>, c: Command, after: seq<Command>)
    requires c.SubmitStop?
    ensures var e, log := Run(NewEngine, before), StopsSubmitted(NewEngine, before + [c] + after);
      && Explains(log, Run(NewEngine, before + [c] + after).book)
      && Submitted(OrderOf(c, e.nextId), |e.book.trades|) in log
      && forall s | s in log && s.stop.id == e.nextId :: s == Submitted(OrderOf(c, e.nextId), |e.book.trades|)
  {
    hide Step, Run, StopsSubmitted, Explains;
    var e := Run(NewEngine, before);
    var s0 := Submitted(OrderOf(c, e.nextId), |e.book.trades|);
    var head, tail := StopsSubmitted(NewEngine, before), StopsSubmitted(Step(e, c), after);
    assert before + [c] + after == before + ([c] + after);
    NothingSubmitted();
    RunStops(NewEngine, before + [c] + after, []);
    SubmittedConcat(NewEngine, before, [c] + after);
    SubmittedCons(e, c, after);
    SubmittedIds(NewEngine, before);
    SubmittedIds(Step(e, c), after);
    StopCounted(e, c);
    var log := StopsSubmitted(NewEngine, before + [c] + after);
    assert [] + log == log && log == head + ([s0] + tail);
    assert log[|head|] == s0;
  }

  lemma NothingSubmitted()
    ensures Explains([], NewEngine.book)
  {
  }

  lemma StopCounted(e: Engine, c: Command)
    requires c.SubmitStop?
    ensures StopOf(e, c) == [Submitted(OrderOf(c, e.nextId), |e.book.trades|)] && Step(e, c).nextId == e.nextId + 1
    ensures OrderOf(c, e.nextId).id == e.nextId
  {
    hide Match;
  }

  /**
    Stop exactness in the command's own terms, over every run whatsoever: a sell stop still waits exactly if every trade
    since its submit was above its trigger, a buy stop exactly if every one was below; and it waits with its side, its
    quantity and its limit price.
   */
  lemma {:induction false} StopWaitsWhile(before: seq<Command>, side: Side, trigger: int, limit: int, qty: nat, ts: int,
                                          after: seq<Command>)
    ensures var e, b := Run(NewEngine, before),
                        Run(NewEngine, before + [SubmitStop(side, trigger, limit, qty, ts)] + after).book;
      && |e.book.trades| <= |b.trades|
      && (e.nextId in IdsOf(b.pending) <==>
            forall t | t in b.trades[|e.book.trades|..] :: if side.Sell? then t.price > trigger else t.price < trigger)
      && (forall o | o in b.pending && o.id == e.nextId ::
            o.side == side && o.price == limit && o.leaves == qty && o.timestamp == ts)
  {
    hide Run, StopsSubmitted, Unmet;
    var c, e := SubmitStop(side, trigger, limit, qty, ts), Run(NewEngine, before);
    var b, log := Run(NewEngine, before + [c] + after).book, StopsSubmitted(NewEngine, before + [c] + after);
    var stop, n := OrderOf(c, e.nextId), |e.book.trades|;
    LogAround(before, c, after);
    UnmetAre(log, b.trades);
    assert Submitted(stop, n).since <= |b.trades|;
    assert forall o | o in b.pending && o.id == e.nextId :: o == stop && !Met(stop, b.trades[n..]);
    assert !Met(stop, b.trades[n..]) ==> stop in b.pending;
  }

  // ----- the order in which stops fire -----

  /** In the order of their submits. */
  predicate InOrder(stops: seq<OrderState>) {
    forall i, j | 0 <= i < j < |stops| :: stops[i].id < stops[j].id
  }

  lemma {:induction false} UnmetInOrder(log: seq<Submitted>, trades: seq<Trade>)
    requires (forall s | s in log :: s.since <= |trades|) && IdsRise(log)
    ensures InOrder(Unmet(log, trades))
    ensures forall o | o in Unmet(log, trades) :: log != [] && log[0].stop.id <= o.id
  {
    hide Met;
    if log != [] {
      var rest := log[1..];
      assert log[0] in log && forall i | 0 <= i < |rest| :: rest[i] == log[i + 1] && rest[i] in log;
      UnmetInOrder(rest, trades);
    }
  }

  /** After every run the waiting stops stand in the order of their submits. */
  lemma {:induction false} WaitInOrder(cs: seq<Command>)
    ensures InOrder(Run(NewEngine, cs).book.pending)
  {
    hide Run, StopsSubmitted, Unmet;
    NothingSubmitted();
    RunStops(NewEngine, cs, []);
    SubmittedIds(NewEngine, cs);
    var log := StopsSubmitted(NewEngine, cs);
    assert [] + log == log;
    UnmetInOrder(log, Run(NewEngine, cs).book.trades);
  }

  predicate From(n: nat, stops: seq<OrderState>) {
    forall o | o in stops :: n <= o.id
  }

  lemma InOrderCons(o: OrderState, rest: seq<OrderState>)
    requires InOrder(rest) && From(o.id + 1, rest)
    ensures InOrder([o] + rest) && From(o.id, [o] + rest)
  {
  }

  lemma InOrderTail(stops: seq<OrderState>)
    requires stops != [] && InOrder(stops)
    ensures InOrder(stops[1..]) && From(stops[0].id + 1, stops[1..])
  {
    assert forall i | 0 <= i < |stops[1..]| :: stops[1..][i] == stops[i + 1];
  }

  lemma {:induction false} SplitInOrder(stops: seq<OrderState>, last: int, n: nat)
    requires InOrder(stops) && From(n, stops)
    ensures InOrder(Holding(stops, last)) && InOrder(Firing(stops, last))
    ensures From(n, Holding(stops, last)) && From(n, Firing(stops, last))
  {
    hide InOrder;
    if stops != [] {
      var o, rest := stops[0], stops[1..];
      assert o in stops;
      InOrderTail(stops);
      SplitInOrder(rest, last, o.id + 1);
      InOrderCons(o, Holding(rest, last));
      InOrderCons(TriggeredOrder(o), Firing(rest, last));
      assert [] + Holding(rest, last) == Holding(rest, last) && [] + Firing(rest, last) == Firing(rest, last);
    } else {
      NothingInOrder();
    }
  }

  lemma NothingInOrder()
    ensures InOrder([])
  {
  }

  /** The stops that one trade fires are staged in the order of their submits, behind those fired before. */
  lemma {:induction false} FireInOrder(b: Book, last: int)
    requires InOrder(b.pending)
    ensures var r := CheckStops(b, last);
      InOrder(r.pending) && b.triggered <= r.triggered && InOrder(r.triggered[|b.triggered|..])
  {
    SplitInOrder(b.pending, last, 0);
    assert CheckStops(b, last).triggered[|b.triggered|..] == Firing(b.pending, last);
  }
}
