/** What holds in every state a run of commands reaches. */
module EngineRuns {
  import opened Orders
  import opened BookSpec
  import opened BookInvariants
  import opened UncrossedBook
  import opened StopCascade
  import opened Ledger
  import opened EngineSpec

  // ----- ids stay below the counter -----

  predicate Below(stops: seq<OrderState>, n: nat) {
    forall o | o in stops :: o.id < n
  }

  predicate BookBelow(b: Book, n: nat) {
    (forall id | id in b.active :: id < n) && Below(b.pending, n) && Below(b.triggered, n)
  }

  lemma BelowIds(stops: seq<OrderState>, n: nat)
    ensures Below(stops, n) <==> forall id | id in IdsOf(stops) :: id < n
  {
    if forall id | id in IdsOf(stops) :: id < n {
      forall o | o in stops ensures o.id < n { assert o.id in IdsOf(stops); }
    }
  }

  lemma MatchOneBelow(b: Book, batch: seq<OrderState>, o: OrderState, n: nat)
    requires ConsistentWith(b, batch) && Fresh(o) && Unused(b, batch, o.id) && BookBelow(b, n) && o.id < n
    ensures BookBelow(MatchOne(b, o), n)
  {
    hide SideOk, SweepLevels, RecordAll;
    var opp := o.side.Opposite();
    var s := SweepLevels(o, b.On(opp));
    SweepLevelsOk(o, opp, b.On(opp), b.active);
    RecordAllOk(b.With(opp, s.levels), batch, o, s.fills);
    BelowIds(b.pending, n);
    BelowIds(b.triggered, n);
    BelowIds(MatchOne(b, o).pending, n);
    BelowIds(MatchOne(b, o).triggered, n);
  }

  lemma {:induction false} RunBatchBelow(b: Book, batch: seq<OrderState>, n: nat)
    requires ConsistentWith(b, batch) && BookBelow(b, n) && Below(batch, n)
    ensures BookBelow(RunBatch(b, batch), n)
    decreases |batch|
  {
    if batch != [] {
      BatchTail(b, batch);
      MatchOneOk(b, batch[1..], batch[0]);
      assert batch[0] in batch;
      MatchOneBelow(b, batch[1..], batch[0], n);
      RunBatchBelow(MatchOne(b, batch[0]), batch[1..], n);
    }
  }

  lemma {:induction false} CascadeBelow(b: Book, n: nat)
    requires ConsistentWith(b, []) && BookBelow(b, n)
    ensures BookBelow(Cascade(b), n)
    decreases |b.pending| + |b.triggered|
  {
    if b.triggered != [] {
      RunBatchOk(b.(triggered := []), b.triggered);
      RunBatchBelow(b.(triggered := []), b.triggered, n);
      CascadeBelow(RunBatch(b.(triggered := []), b.triggered), n);
    }
  }

  // ----- trade numbering -----

  /** Trades are numbered 1, 2, 3, ... and the counter is the next number. */
  predicate Numbered(b: Book) {
    b.nextTradeId == |b.trades| + 1 && forall i | 0 <= i < |b.trades| :: b.trades[i].tradeId == i + 1
  }

  lemma {:induction false} TradesOfNumbered(tradeId: nat, agg: OrderState, fills: seq<Fill>)
    ensures var t := TradesOf(tradeId, agg, fills);
            |t| == |fills| && forall i | 0 <= i < |t| :: t[i].tradeId == tradeId + i
    decreases |fills|
  {
    if fills != [] {
      TradesOfNumbered(tradeId + 1, agg, fills[1..]);
    }
  }

  lemma MatchOneNumbered(b: Book, o: OrderState)
    requires Numbered(b)
    ensures Numbered(MatchOne(b, o))
  {
    var opp := o.side.Opposite();
    var s := SweepLevels(o, b.On(opp));
    RecordAllTrades(b.With(opp, s.levels), o, s.fills);
    TradesOfNumbered(b.nextTradeId, o, s.fills);
  }

  lemma {:induction false} RunBatchNumbered(b: Book, batch: seq<OrderState>)
    requires Numbered(b)
    ensures Numbered(RunBatch(b, batch))
    decreases |batch|
  {
    if batch != [] {
      MatchOneNumbered(b, batch[0]);
      RunBatchNumbered(MatchOne(b, batch[0]), batch[1..]);
    }
  }

  lemma {:induction false} CascadeNumbered(b: Book)
    requires Numbered(b)
    ensures Numbered(Cascade(b))
    decreases |b.pending| + |b.triggered|
  {
    if b.triggered != [] {
      RunBatchNumbered(b.(triggered := []), b.triggered);
      CascadeNumbered(RunBatch(b.(triggered := []), b.triggered));
    }
  }

  // ----- the invariant of every run -----

  predicate EngineOk(e: Engine) {
    Consistent(e.book) && BookBelow(e.book, e.nextId) && Numbered(e.book)
  }

  lemma SubmitReady(e: Engine, c: Command)
    requires EngineOk(e) && IsSubmit(c) && Legal(c)
    ensures Fresh(OrderOf(c, e.nextId)) && Unused(e.book, [], e.nextId) && OrderOf(c, e.nextId).id == e.nextId
  {
  }

  lemma SubmitOk(e: Engine, o: OrderState)
    requires EngineOk(e) && Fresh(o) && Unused(e.book, [], o.id) && o.id == e.nextId
    ensures EngineOk(Engine(Match(e.book, o), e.nextId + 1))
  {
    hide MatchOne, SideOk, SweepLevels;
    MatchOk(e.book, o);
    if !(o.kind.StopLoss? && !o.triggered) {
      MatchOneOk(e.book, [], o);
      MatchOneBelow(e.book, [], o, e.nextId + 1);
      CascadeBelow(MatchOne(e.book, o), e.nextId + 1);
      MatchOneNumbered(e.book, o);
      CascadeNumbered(MatchOne(e.book, o));
    }
  }

  lemma StepOk(e: Engine, c: Command)
    requires EngineOk(e) && Legal(c)
    ensures EngineOk(Step(e, c))
  {
    hide Match, SideOk;
    match c
    case CancelOrder(id) =>
      CancelOk(e.book, id);
    case ModifyOrder(id, newPrice, newQty, ts) =>
      CancelOk(e.book, id);
      ModifyOk(e.book, id, newPrice, newQty, ts);
    case _ =>
      SubmitReady(e, c);
      SubmitOk(e, OrderOf(c, e.nextId));
  }

  /**
    Every state a run reaches: sides sorted, no empty level, every resting order sound, at its place and known, stops
    apart.
   */
  lemma {:induction false} RunOk(e: Engine, cs: seq<Command>)
    requires EngineOk(e) && AllLegal(cs)
    ensures EngineOk(Run(e, cs))
    decreases |cs|
  {
    if cs != [] {
      assert cs[0] in cs;
      StepOk(e, cs[0]);
      RunOk(Step(e, cs[0]), cs[1..]);
    }
  }

  lemma NewEngineOk()
    ensures EngineOk(NewEngine) && Uncrossed(NewEngine.book) && CleanBook(NewEngine.book) && NoStrays(NewEngine.book)
  {
  }

  // ----- uncrossed runs -----

  /** No modify of the run asks for a price that crosses at the moment it is made. */
  predicate NoCrossingModify(e: Engine, cs: seq<Command>)
    decreases |cs|
  {
    cs == [] ||
    (var c := cs[0];
     && (c.ModifyOrder? && c.id in e.book.active ==> !Crosses(e.book, e.book.active[c.id].side, c.newPrice))
     && NoCrossingModify(Step(e, c), cs[1..]))
  }

  lemma {:induction false} RunUncrossed(e: Engine, cs: seq<Command>)
    requires EngineOk(e) && AllLegal(cs) && Uncrossed(e.book) && NoCrossingModify(e, cs)
    ensures Uncrossed(Run(e, cs).book)
    decreases |cs|
  {
    if cs != [] {
      var c := cs[0];
      assert c in cs;
      StepOk(e, c);
      match c {
        case CancelOrder(id) =>
          CancelUncrossed(e.book, id);
        case ModifyOrder(id, newPrice, newQty, ts) =>
          if id in e.book.active {
            ModifyUncrossedIff(e.book, id, newPrice, newQty, ts);
          }
        case _ =>
          SubmitReady(e, c);
          MatchUncrossed(e.book, OrderOf(c, e.nextId));
      }
      RunUncrossed(Step(e, c), cs[1..]);
    }
  }

  // ----- clean runs -----

  /** No submitted order comes to rest with nothing visible, and no modify makes a resting order invisible. */
  predicate TidyStep(e: Engine, c: Command) {
    match c
    case CancelOrder(_) => true
    case ModifyOrder(id, _, newQty, _) => id in e.book.active ==> !e.book.active[id].kind.Iceberg? && 0 < newQty
    case _ => RestsClean(e.book, OrderOf(c, e.nextId))
  }

  predicate Tidy(e: Engine, cs: seq<Command>)
    decreases |cs|
  {
    cs == [] || (TidyStep(e, cs[0]) && Tidy(Step(e, cs[0]), cs[1..]))
  }

  lemma TidyStepClean(e: Engine, c: Command)
    requires EngineOk(e) && Legal(c) && CleanBook(e.book) && NoStrays(e.book) && TidyStep(e, c)
    ensures CleanBook(Step(e, c).book) && NoStrays(Step(e, c).book)
  {
    match c
    case CancelOrder(id) =>
      CancelOk(e.book, id);
    case ModifyOrder(id, newPrice, newQty, ts) =>
      ModifyOk(e.book, id, newPrice, newQty, ts);
    case _ =>
      SubmitReady(e, c);
      MatchOk(e.book, OrderOf(c, e.nextId));
  }

  /** In a tidy run `active_` knows exactly the resting orders, and each has something to show. */
  lemma {:induction false} RunClean(e: Engine, cs: seq<Command>)
    requires EngineOk(e) && AllLegal(cs) && CleanBook(e.book) && NoStrays(e.book) && Tidy(e, cs)
    ensures CleanBook(Run(e, cs).book) && NoStrays(Run(e, cs).book)
    decreases |cs|
  {
    if cs != [] {
      assert cs[0] in cs;
      StepOk(e, cs[0]);
      TidyStepClean(e, cs[0]);
      RunClean(Step(e, cs[0]), cs[1..]);
    }
  }

  // ----- stop exactness -----

  /** A submitted stop, with the length of the trade history at that moment. */
  datatype Submitted = Submitted(stop: OrderState, since: nat)

  function StopOf(e: Engine, c: Command): seq<Submitted> {
    if c.SubmitStop? then [Submitted(OrderOf(c, e.nextId), |e.book.trades|)] else []
  }

  /** The stops a run submits, in order. */
  function StopsSubmitted(e: Engine, cs: seq<Command>): seq<Submitted>
    decreases |cs|
  {
    if cs == [] then [] else StopOf(e, cs[0]) + StopsSubmitted(Step(e, cs[0]), cs[1..])
  }

  /** The submitted stops whose trigger no trade since has met. */
  function Unmet(log: seq<Submitted>, trades: seq<Trade>): seq<OrderState>
    requires forall s | s in log :: s.since <= |trades|
  {
    if log == [] then []
    else
      assert log[0] in log;
      (if Met(log[0].stop, trades[log[0].since..]) then [] else [log[0].stop]) + Unmet(log[1..], trades)
  }

  lemma InBoth<T>(a: seq<T>, b: seq<T>)
    ensures (forall s | s in a :: s in a + b) && (forall s | s in b :: s in a + b)
    ensures a != [] ==> (a + b)[1..] == a[1..] + b && (a + b)[0] == a[0] && forall s | s in a[1..] + b :: s in a + b
  {
    if a != [] {
      assert (a + b)[1..] == a[1..] + b;
      assert forall s | s in (a + b)[1..] :: s in a + b;
    }
  }

  lemma {:induction false} UnmetConcat(a: seq<Submitted>, b: seq<Submitted>, trades: seq<Trade>)
    requires forall s | s in a + b :: s.since <= |trades|
    ensures (forall s | s in a :: s in a + b) && (forall s | s in b :: s in a + b)
    ensures Unmet(a + b, trades) == Unmet(a, trades) + Unmet(b, trades)
  {
    hide Met;
    InBoth(a, b);
    if a == [] {
      assert a + b == b;
    } else {
      UnmetConcat(a[1..], b, trades);
      assert a[0] in a + b;
      var x := if Met(a[0].stop, trades[a[0].since..]) then [] else [a[0].stop];
      assert x + (Unmet(a[1..], trades) + Unmet(b, trades)) == (x + Unmet(a[1..], trades)) + Unmet(b, trades);
    }
  }

  lemma {:induction false} UnmetGrows(log: seq<Submitted>, trades: seq<Trade>, news: seq<Trade>)
    requires forall s | s in log :: s.since <= |trades|
    ensures Unmet(log, trades + news) == Waiting(Unmet(log, trades), news)
  {
    if log != [] {
      var s := log[0];
      assert s in log;
      UnmetGrows(log[1..], trades, news);
      assert (trades + news)[s.since..] == trades[s.since..] + news;
      assert Met(s.stop, trades[s.since..] + news) <==> Met(s.stop, trades[s.since..]) || Met(s.stop, news) by {
        if t :| t in trades[s.since..] && Fires(s.stop, t.price) { assert t in trades[s.since..] + news; }
        if t :| t in news && Fires(s.stop, t.price) { assert t in trades[s.since..] + news; }
      }
      var rest := Unmet(log[1..], trades);
      if Met(s.stop, trades[s.since..]) {
        assert [] + rest == rest;
      } else {
        WaitingConcat([s.stop], rest, news);
      }
    }
  }

  /** The log explains the pending stops. */
  predicate Explains(log: seq<Submitted>, b: Book) {
    (forall s | s in log :: s.since <= |b.trades|) && b.pending == Unmet(log, b.trades)
  }

  lemma StopExplained(e: Engine, c: Command, log: seq<Submitted>)
    requires Explains(log, e.book) && c.SubmitStop?
    ensures Explains(log + StopOf(e, c), Step(e, c).book)
  {
    var b, o := e.book, OrderOf(c, e.nextId);
    MatchFollows(b, o);
    UnmetConcat(log, StopOf(e, c), b.trades);
    assert b.trades[|b.trades|..] == [];
    assert Unmet(StopOf(e, c), b.trades) == [o] + Unmet([], b.trades);
  }

  lemma StepExplains(e: Engine, c: Command, log: seq<Submitted>)
    requires Explains(log, e.book)
    ensures Explains(log + StopOf(e, c), Step(e, c).book)
  {
    if c.SubmitStop? {
      StopExplained(e, c, log);
    } else {
      assert log + StopOf(e, c) == log;
      var b, r := e.book, Step(e, c).book;
      if IsSubmit(c) {
        MatchFollows(b, OrderOf(c, e.nextId));
        UnmetGrows(log, b.trades, r.trades[|b.trades|..]);
        assert r.trades == b.trades + r.trades[|b.trades|..];
      }
    }
  }

  /**
    Stop exactness over whole runs: the pending stops are the submitted ones, in submission order, whose trigger
    no trade recorded since their submission met - the trades of other stops in the same cascade included.
   */
  lemma {:induction false} RunStops(e: Engine, cs: seq<Command>, log: seq<Submitted>)
    requires Explains(log, e.book)
    ensures Explains(log + StopsSubmitted(e, cs), Run(e, cs).book)
    decreases |cs|
  {
    if cs == [] {
      assert log + [] == log;
    } else {
      StepExplains(e, cs[0], log);
      RunStops(Step(e, cs[0]), cs[1..], log + StopOf(e, cs[0]));
      assert log + StopsSubmitted(e, cs) == (log + StopOf(e, cs[0])) + StopsSubmitted(Step(e, cs[0]), cs[1..]);
    }
  }
}
