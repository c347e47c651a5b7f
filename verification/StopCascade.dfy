/** Stops: which stay pending, which run, in which order, and that batching them changes nothing. */
module StopCascade {
  import opened Orders
  import opened BookSpec

  // ----- exactness: a stop is pending exactly while no trade met its trigger -----

  predicate Met(stop: OrderState, trades: seq<Trade>) {
    exists t | t in trades :: Fires(stop, t.price)
  }

  /** The stops no trade of `trades` met, in their order. */
  function Waiting(stops: seq<OrderState>, trades: seq<Trade>): seq<OrderState> {
    if stops == [] then []
    else (if Met(stops[0], trades) then [] else [stops[0]]) + Waiting(stops[1..], trades)
  }

  /** `r` follows `b`: its history grows, and its pending stops are those the new trades did not meet. */
  predicate Follows(b: Book, r: Book) {
    b.trades <= r.trades && r.pending == Waiting(b.pending, r.trades[|b.trades|..])
  }

  lemma {:induction false} WaitingNone(stops: seq<OrderState>)
    ensures Waiting(stops, []) == stops
  {
    if stops != [] {
      WaitingNone(stops[1..]);
      assert stops == [stops[0]] + stops[1..];
    }
  }

  lemma {:induction false} WaitingConcat(s1: seq<OrderState>, s2: seq<OrderState>, trades: seq<Trade>)
    ensures Waiting(s1 + s2, trades) == Waiting(s1, trades) + Waiting(s2, trades)
  {
    if s1 == [] {
      assert s1 + s2 == s2;
    } else {
      assert (s1 + s2)[1..] == s1[1..] + s2;
      WaitingConcat(s1[1..], s2, trades);
    }
  }

  lemma {:induction false} WaitingTwice(stops: seq<OrderState>, t1: seq<Trade>, t2: seq<Trade>)
    ensures Waiting(Waiting(stops, t1), t2) == Waiting(stops, t1 + t2)
  {
    if stops != [] {
      var s := stops[0];
      WaitingTwice(stops[1..], t1, t2);
      assert Met(s, t1 + t2) <==> Met(s, t1) || Met(s, t2) by {
        if t :| t in t1 && Fires(s, t.price) { assert t in t1 + t2; }
        if t :| t in t2 && Fires(s, t.price) { assert t in t1 + t2; }
      }
      var rest := Waiting(stops[1..], t1);
      if Met(s, t1) {
        assert [] + rest == rest;
      } else {
        WaitingConcat([s], rest, t2);
      }
    }
  }

  lemma {:induction false} HoldingIsWaiting(stops: seq<OrderState>, t: Trade)
    ensures Holding(stops, t.price) == Waiting(stops, [t])
  {
    if stops != [] {
      HoldingIsWaiting(stops[1..], t);
      assert t in [t];
    }
  }

  lemma FollowsTrans(a: Book, b: Book, c: Book)
    requires Follows(a, b) && Follows(b, c)
    ensures Follows(a, c)
  {
    var t1, t2 := b.trades[|a.trades|..], c.trades[|b.trades|..];
    WaitingTwice(a.pending, t1, t2);
    assert c.trades[|a.trades|..] == t1 + t2;
  }

  lemma FollowsRefl(b: Book, r: Book)
    requires r.trades == b.trades && r.pending == b.pending
    ensures Follows(b, r)
  {
    WaitingNone(b.pending);
    assert r.trades[|b.trades|..] == [];
  }

  lemma {:induction false} RecordAllFollows(b: Book, agg: OrderState, fills: seq<Fill>)
    ensures Follows(b, RecordAll(b, agg, fills))
    decreases |fills|
  {
    if fills == [] {
      FollowsRefl(b, b);
    } else {
      var r := Record(b, agg, fills[0]);
      var t := TradeOf(b.nextTradeId, agg, fills[0]);
      HoldingIsWaiting(b.pending, t);
      assert r.trades[|b.trades|..] == [t];
      RecordAllFollows(r, agg, fills[1..]);
      FollowsTrans(b, r, RecordAll(b, agg, fills));
    }
  }

  lemma MatchOneFollows(b: Book, o: OrderState)
    ensures Follows(b, MatchOne(b, o))
  {
    var opp := o.side.Opposite();
    var s := SweepLevels(o, b.On(opp));
    var b1 := b.With(opp, s.levels);
    FollowsRefl(b, b1);
    RecordAllFollows(b1, o, s.fills);
    FollowsTrans(b, b1, RecordAll(b1, o, s.fills));
  }

  lemma {:induction false} RunBatchFollows(b: Book, batch: seq<OrderState>)
    ensures Follows(b, RunBatch(b, batch))
    decreases |batch|
  {
    if batch == [] {
      FollowsRefl(b, b);
    } else {
      MatchOneFollows(b, batch[0]);
      RunBatchFollows(MatchOne(b, batch[0]), batch[1..]);
      FollowsTrans(b, MatchOne(b, batch[0]), RunBatch(b, batch));
    }
  }

  /** The trades of stops that fire in the cascade count too. */
  lemma {:induction false} CascadeFollows(b: Book)
    ensures Follows(b, Cascade(b))
    decreases |b.pending| + |b.triggered|
  {
    if b.triggered == [] {
      FollowsRefl(b, b);
    } else {
      var b0 := b.(triggered := []);
      FollowsRefl(b, b0);
      RunBatchFollows(b0, b.triggered);
      CascadeFollows(RunBatch(b0, b.triggered));
      FollowsTrans(b0, RunBatch(b0, b.triggered), Cascade(b));
    }
  }

  /** match, for any book: a submitted stop is appended; otherwise the unmet stops stay, in order. */
  lemma MatchFollows(b: Book, o: OrderState)
    ensures o.kind.StopLoss? && !o.triggered ==>
              Match(b, o).trades == b.trades && Match(b, o).pending == b.pending + [o]
    ensures !(o.kind.StopLoss? && !o.triggered) ==> Follows(b, Match(b, o)) && Match(b, o).triggered == []
  {
    if !(o.kind.StopLoss? && !o.triggered) {
      MatchOneFollows(b, o);
      CascadeFollows(MatchOne(b, o));
      FollowsTrans(b, MatchOne(b, o), Match(b, o));
    }
  }

  // ----- exactly once: every stop ends up pending or is run one time -----

  /** The orders a cascade runs, in order. */
  function Ran(b: Book): seq<OrderState>
    decreases |b.pending| + |b.triggered|
  {
    if b.triggered == [] then []
    else b.triggered + Ran(RunBatch(b.(triggered := []), b.triggered))
  }

  /** How often `s` occurs, its trigger flag ignored so that a stop can be followed through its firing. */
  function Times(s: OrderState, stops: seq<OrderState>): nat {
    if stops == [] then 0
    else (if TriggeredOrder(stops[0]) == TriggeredOrder(s) then 1 else 0) + Times(s, stops[1..])
  }

  lemma {:induction false} TimesConcat(s: OrderState, a: seq<OrderState>, b: seq<OrderState>)
    ensures Times(s, a + b) == Times(s, a) + Times(s, b)
  {
    if a == [] {
      assert a + b == b;
    } else {
      assert (a + b)[1..] == a[1..] + b;
      TimesConcat(s, a[1..], b);
    }
  }

  lemma {:induction false} TimesSplit(s: OrderState, stops: seq<OrderState>, last: int)
    ensures Times(s, Holding(stops, last)) + Times(s, Firing(stops, last)) == Times(s, stops)
  {
    if stops != [] {
      TimesSplit(s, stops[1..], last);
      TimesConcat(s, if Fires(stops[0], last) then [] else [stops[0]], Holding(stops[1..], last));
      TimesConcat(s, if Fires(stops[0], last) then [TriggeredOrder(stops[0])] else [], Firing(stops[1..], last));
    }
  }

  function Kept(s: OrderState, b: Book): nat {
    Times(s, b.pending) + Times(s, b.triggered)
  }

  lemma {:induction false} RecordAllKeeps(s: OrderState, b: Book, agg: OrderState, fills: seq<Fill>)
    ensures Kept(s, RecordAll(b, agg, fills)) == Kept(s, b)
    decreases |fills|
  {
    if fills != [] {
      TimesSplit(s, b.pending, fills[0].price);
      TimesConcat(s, b.triggered, Firing(b.pending, fills[0].price));
      RecordAllKeeps(s, Record(b, agg, fills[0]), agg, fills[1..]);
    }
  }

  lemma {:induction false} RunBatchKeeps(s: OrderState, b: Book, batch: seq<OrderState>)
    ensures Kept(s, RunBatch(b, batch)) == Kept(s, b)
    decreases |batch|
  {
    if batch != [] {
      var opp := batch[0].side.Opposite();
      var sweep := SweepLevels(batch[0], b.On(opp));
      RecordAllKeeps(s, b.With(opp, sweep.levels), batch[0], sweep.fills);
      RunBatchKeeps(s, MatchOne(b, batch[0]), batch[1..]);
    }
  }

  /** Each stop is pending afterwards, or has been run, as often as it was there before: once. */
  lemma {:induction false} ExactlyOnce(s: OrderState, b: Book)
    ensures Times(s, Ran(b)) + Times(s, Cascade(b).pending) == Kept(s, b)
    decreases |b.pending| + |b.triggered|
  {
    if b.triggered != [] {
      var b0 := b.(triggered := []);
      RunBatchKeeps(s, b0, b.triggered);
      ExactlyOnce(s, RunBatch(b0, b.triggered));
      TimesConcat(s, b.triggered, Ran(RunBatch(b0, b.triggered)));
    }
  }

  // ----- the batched loop is a one-at-a-time first-in-first-out worklist -----

  function Worklist(b: Book): Book
    decreases |b.pending| + |b.triggered|
  {
    if b.triggered == [] then b
    else Worklist(MatchOne(b.(triggered := b.triggered[1..]), b.triggered[0]))
  }

  function WorklistRan(b: Book): seq<OrderState>
    decreases |b.pending| + |b.triggered|
  {
    if b.triggered == [] then []
    else [b.triggered[0]] + WorklistRan(MatchOne(b.(triggered := b.triggered[1..]), b.triggered[0]))
  }

  /** `b` with more fired stops queued in front. */
  function Ahead(stops: seq<OrderState>, b: Book): Book {
    b.(triggered := stops + b.triggered)
  }

  lemma {:induction false} RecordAllAhead(stops: seq<OrderState>, b: Book, agg: OrderState, fills: seq<Fill>)
    ensures RecordAll(Ahead(stops, b), agg, fills) == Ahead(stops, RecordAll(b, agg, fills))
    decreases |fills|
  {
    if fills != [] {
      var f := Firing(b.pending, fills[0].price);
      assert (stops + b.triggered) + f == stops + (b.triggered + f);
      RecordAllAhead(stops, Record(b, agg, fills[0]), agg, fills[1..]);
    }
  }

  lemma MatchOneAhead(stops: seq<OrderState>, b: Book, o: OrderState)
    ensures MatchOne(Ahead(stops, b), o) == Ahead(stops, MatchOne(b, o))
  {
    hide SweepLevels, RecordAll, AddOrder;
    var opp := o.side.Opposite();
    var s := SweepLevels(o, b.On(opp));
    RecordAllAhead(stops, b.With(opp, s.levels), o, s.fills);
  }

  lemma WorklistStep(o: OrderState, rest: seq<OrderState>, b: Book)
    ensures Worklist(Ahead([o] + rest, b)) == Worklist(Ahead(rest, MatchOne(b, o)))
    ensures WorklistRan(Ahead([o] + rest, b)) == [o] + WorklistRan(Ahead(rest, MatchOne(b, o)))
  {
    var w := Ahead([o] + rest, b);
    assert w.triggered[0] == o && w.triggered[1..] == rest + b.triggered;
    assert w.(triggered := w.triggered[1..]) == Ahead(rest, b);
    MatchOneAhead(rest, b, o);
  }

  lemma {:induction false} WorklistBatch(batch: seq<OrderState>, b: Book)
    ensures Worklist(Ahead(batch, b)) == Worklist(RunBatch(b, batch))
    ensures WorklistRan(Ahead(batch, b)) == batch + WorklistRan(RunBatch(b, batch))
    decreases |batch|
  {
    hide MatchOne;
    if batch == [] {
      assert Ahead(batch, b) == b;
    } else {
      assert batch == [batch[0]] + batch[1..];
      WorklistStep(batch[0], batch[1..], b);
      WorklistBatch(batch[1..], MatchOne(b, batch[0]));
    }
  }

  lemma {:induction false} CascadeIsWorklist(b: Book)
    ensures Cascade(b) == Worklist(b)
    ensures Ran(b) == WorklistRan(b)
    decreases |b.pending| + |b.triggered|
  {
    if b.triggered != [] {
      var b0 := b.(triggered := []);
      assert Ahead(b.triggered, b0) == b;
      WorklistBatch(b.triggered, b0);
      CascadeIsWorklist(RunBatch(b0, b.triggered));
    }
  }
}
