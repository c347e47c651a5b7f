/** The full engine simulates the naive one on every stream of limit orders, and of icebergs sent to it at full size. */
module BaselineRuns {
  import opened Orders
  import opened BookSpec
  import opened BookInvariants
  import opened UncrossedBook
  import opened BaselineSpec
  import opened Transparency
  import opened TransparentCascade
  import opened Ledger
  import opened EngineSpec
  import opened EngineRuns

  /** The orders both engines take; the naive one gets an iceberg as a limit order of its total size. */
  predicate Shared(c: Command) {
    (c.SubmitLimit? && 0 < c.qty) || (c.SubmitIceberg? && 0 < c.display <= c.total < WORD)
  }

  function SizeOf(c: Command): nat
    requires Shared(c)
  {
    if c.SubmitLimit? then c.qty else c.total
  }

  function BaselineStep(lob: Baseline, c: Command): BaselineResult
    requires Shared(c)
  {
    BaselineMatch(lob, c.side, c.price, SizeOf(c))
  }

  function BaselineRun(lob: Baseline, cs: seq<Command>): BaselineResult
    requires forall c | c in cs :: Shared(c)
    decreases |cs|
  {
    if cs == [] then BaselineResult(lob, [])
    else
      var first := BaselineStep(lob, cs[0]);
      var rest := BaselineRun(first.lob, cs[1..]);
      BaselineResult(rest.lob, first.trades + rest.trades)
  }

  const NewBaseline: Baseline := Baseline([], [], 1)

  /** Level by level the same orders with the same leaves, the same next id, and no stops. */
  predicate Corresponds(e: Engine, lob: Baseline) {
    && SeenLevels(e.book.bids) == lob.bids && SeenLevels(e.book.asks) == lob.asks
    && e.nextId == lob.nextId && e.book.pending == [] && e.book.triggered == []
  }

  predicate PlainSides(b: Book) {
    PlainLevels(b.bids) && PlainLevels(b.asks)
  }

  lemma {:induction false} NoStopsRecorded(b: Book, agg: OrderState, fills: seq<Fill>)
    requires b.pending == [] && b.triggered == []
    ensures var r := RecordAll(b, agg, fills); r.pending == [] && r.triggered == []
    decreases |fills|
  {
    if fills != [] {
      NoStopsRecorded(Record(b, agg, fills[0]), agg, fills[1..]);
    }
  }

  lemma {:induction false} AddOrderPlain(side: Side, levels: seq<Level>, o: OrderState)
    requires PlainLevels(levels) && !o.kind.Iceberg?
    ensures PlainLevels(AddOrder(side, levels, o))
    decreases |levels|
  {
    if levels != [] {
      assert levels[0] in levels;
      if !Better(side, o.price, levels[0].price) && levels[0].price != o.price {
        AddOrderPlain(side, levels[1..], o);
      }
    }
  }

  /** The trades a step of the full engine reports. */
  function News(b: Book, r: Book): seq<SimpleTrade>
    requires b.trades <= r.trades
  {
    TradesSeen(r.trades[|b.trades|..])
  }

  /** `r`, `t` are what the engines made of one input: corresponding books, the same trades; exactly, if `plain`. */
  predicate Simulated(e: Engine, r: Engine, t: BaselineResult, plain: bool) {
    && Corresponds(r, t.lob)
    && e.book.trades <= r.book.trades
    && Coalesced(News(e.book, r.book)) == Coalesced(t.trades)
    && (plain ==> PlainSides(r.book) && News(e.book, r.book) == t.trades)
  }

  /** The remainder goes to the same place in both. */
  lemma RestSimulates(b: Book, agg: OrderState, plain: bool)
    requires !agg.kind.Market? && (plain ==> PlainSides(b) && !agg.kind.Iceberg?)
    ensures var r := Rest(b, agg);
            && r.pending == b.pending && r.triggered == b.triggered
            && SeenLevels(r.On(agg.side.Opposite())) == SeenLevels(b.On(agg.side.Opposite()))
            && SeenLevels(r.On(agg.side)) ==
               (if 0 < agg.leaves then Push(agg.side, SeenLevels(b.On(agg.side)), Seen(agg))
                else SeenLevels(b.On(agg.side)))
            && (plain ==> PlainSides(r))
  {
    AddOrderSeen(agg.side, b.On(agg.side), agg);
    if plain { AddOrderPlain(agg.side, b.On(agg.side), agg); }
  }

  /** The naive match of `lob`, field by field, for the drain `d` of the opposite side. */
  lemma {:induction false} BaselineMatchParts(lob: Baseline, side: Side, price: int, qty: nat,
                                              d: SimpleSweep<SimpleLevel>)
    requires d == DrainLevels(qty, side, Bound(price), lob.On(side.Opposite()))
    ensures var t := BaselineMatch(lob, side, price, qty);
            && t.lob.nextId == lob.nextId + 1
            && t.lob.On(side.Opposite()) == d.left
            && t.lob.On(side) ==
               (if 0 < d.qty then Push(side, lob.On(side), SimpleOrder(lob.nextId, price, d.qty)) else lob.On(side))
            && t.trades == SimpleTrades(side, lob.nextId, d.fills)
  {
  }

  /** One aggressor, as the two engines' books see it. */
  lemma SweptSimulates(b: Book, o: OrderState, plain: bool, d: SimpleSweep<SimpleLevel>)
    requires Consistent(b) && CleanBook(b) && b.pending == []
    requires Fresh(o) && 0 < o.leaves && !o.kind.Market? && Unused(b, [], o.id)
    requires plain ==> PlainSides(b) && !o.kind.Iceberg?
    requires d == DrainLevels(o.leaves, o.side, Bound(o.price), SeenLevels(b.On(o.side.Opposite())))
    ensures var r := MatchOne(b, o);
            && r.pending == [] && r.triggered == []
            && SeenLevels(r.On(o.side.Opposite())) == d.left
            && SeenLevels(r.On(o.side)) ==
               (if 0 < d.qty then Push(o.side, SeenLevels(b.On(o.side)), SimpleOrder(o.id, o.price, d.qty))
                else SeenLevels(b.On(o.side)))
            && b.trades <= r.trades
            && Coalesced(News(b, r)) == Coalesced(SimpleTrades(o.side, o.id, d.fills))
            && (plain ==> PlainSides(r) && News(b, r) == SimpleTrades(o.side, o.id, d.fills))
  {
    hide SweepLevels, DrainLevels, SideOk, StopsOk;
    var opp := o.side.Opposite();
    var s := SweepLevels(o, b.On(opp));
    SideQueues(opp, b.On(opp), b.active);
    SweepLevelsSeen(o, b.On(opp), plain);
    SweepLevelsOk(o, opp, b.On(opp), b.active);
    var b1 := b.With(opp, s.levels);
    RecordAllTrades(b1, o, s.fills);
    NoStopsRecorded(b1, o, s.fills);
    RestSimulates(RecordAll(b1, o, s.fills), s.agg, plain);
    MatchOneTrades(b, o);
  }

  /** One order through both engines. */
  lemma StepSimulates(e: Engine, lob: Baseline, c: Command, plain: bool)
    requires EngineOk(e) && CleanBook(e.book) && Corresponds(e, lob) && Shared(c) && TidyStep(e, c)
    requires plain ==> PlainSides(e.book) && c.SubmitLimit?
    ensures Simulated(e, Step(e, c), BaselineStep(lob, c), plain)
  {
    hide MatchOne, BaselineMatch, DrainLevels;
    var o := OrderOf(c, e.nextId);
    var d := DrainLevels(o.leaves, o.side, Bound(o.price), SeenLevels(e.book.On(o.side.Opposite())));
    SubmitReady(e, c);
    SweptSimulates(e.book, o, plain, d);
    BaselineMatchParts(lob, o.side, o.price, o.leaves, d);
    assert Step(e, c).book == MatchOne(e.book, o);
  }

  /**
    Simulation over whole streams. Icebergs that rest with something to show only change how many trades report the
    same quantity; a stream of limit orders alone gives the very same trades.
   */
  lemma {:induction false} RunSimulates(e: Engine, lob: Baseline, cs: seq<Command>, plain: bool)
    requires EngineOk(e) && CleanBook(e.book) && NoStrays(e.book) && Corresponds(e, lob)
    requires (forall c | c in cs :: Shared(c)) && Tidy(e, cs)
    requires plain ==> PlainSides(e.book) && forall c | c in cs :: c.SubmitLimit?
    ensures Simulated(e, Run(e, cs), BaselineRun(lob, cs), plain)
    decreases |cs|
  {
    if cs == [] {
      assert e.book.trades[|e.book.trades|..] == [];
    } else {
      var c := cs[0];
      assert c in cs;
      var e1, first := Step(e, c), BaselineStep(lob, c);
      StepOk(e, c);
      TidyStepClean(e, c);
      StepSimulates(e, lob, c, plain);
      RunSimulates(e1, first.lob, cs[1..], plain);
      SimulatedTrans(e, e1, Run(e, cs), first, BaselineRun(first.lob, cs[1..]), plain);
    }
  }

  lemma SimulatedTrans(e: Engine, e1: Engine, r: Engine, first: BaselineResult, rest: BaselineResult, plain: bool)
    requires Simulated(e, e1, first, plain) && Simulated(e1, r, rest, plain)
    ensures Simulated(e, r, BaselineResult(rest.lob, first.trades + rest.trades), plain)
  {
    var n1, n2 := e1.book.trades[|e.book.trades|..], r.book.trades[|e1.book.trades|..];
    assert r.book.trades[|e.book.trades|..] == n1 + n2;
    TradesSeenConcat(n1, n2);
    CoalescedCongruent(TradesSeen(n1), first.trades, TradesSeen(n2), rest.trades);
  }

  lemma {:induction false} LimitsAreTidy(e: Engine, cs: seq<Command>)
    requires EngineOk(e) && forall c | c in cs :: c.SubmitLimit?
    ensures Tidy(e, cs)
    decreases |cs|
  {
    if cs != [] {
      assert cs[0] in cs;
      StepOk(e, cs[0]);
      SubmitReady(e, cs[0]);
      var o := OrderOf(cs[0], e.nextId);
      SweepLevelsOk(o, o.side.Opposite(), e.book.On(o.side.Opposite()), e.book.active);
      LimitsAreTidy(Step(e, cs[0]), cs[1..]);
    }
  }

  /** From empty books: every stream of limit orders with quantity gives the naive engine's trades and levels. */
  lemma {:induction false} LimitStreamsAgree(cs: seq<Command>)
    requires forall c | c in cs :: c.SubmitLimit? && 0 < c.qty
    ensures var r, t := Run(NewEngine, cs), BaselineRun(NewBaseline, cs);
            TradesSeen(r.book.trades) == t.trades && Corresponds(r, t.lob)
  {
    NewEngineOk();
    LimitsAreTidy(NewEngine, cs);
    RunSimulates(NewEngine, NewBaseline, cs, true);
    var trades := Run(NewEngine, cs).book.trades;
    assert trades[|NewEngine.book.trades|..] == trades;
  }

  // ----- why the quantity must be positive -----

  lemma {:induction false} ZeroDrain(side: Side, price: int, levels: seq<SimpleLevel>)
    ensures DrainLevels(0, side, Bound(price), levels) == SimpleSweep(0, levels, [])
  {
  }

  /** An order without quantity trades, for nothing, exactly when it reaches the best price. */
  lemma {:induction false} ZeroSweep(o: OrderState, levels: seq<Level>, active: map<nat, Ref>)
    requires SideOk(o.side.Opposite(), levels, active) && CleanLevels(levels) && o.leaves == 0 && o.IsActive()
    ensures SweepLevels(o, levels).fills == [] <==> levels == [] || !Reaches(o, levels[0].price)
  {
    if levels != [] && Reaches(o, levels[0].price) {
      assert LevelOk(o.side.Opposite(), levels[0], active) && levels[0].queue[0] in levels[0].queue;
      SweepStep(o, levels[0].price, levels[0].queue);
    }
  }

  /**
    A limit order without quantity is where the engines differ, and only when it crosses: the naive engine ignores
    it, the full one records a trade of quantity zero.
   */
  lemma ZeroQuantityAgreesIff(e: Engine, lob: Baseline, side: Side, price: int, ts: int)
    requires EngineOk(e) && CleanBook(e.book) && Corresponds(e, lob)
    ensures var r := Step(e, SubmitLimit(side, price, 0, ts));
            && BaselineMatch(lob, side, price, 0).trades == []
            && e.book.trades <= r.book.trades
            && (r.book.trades == e.book.trades <==> !Crosses(e.book, side, price))
  {
    hide SideOk, AllStopsOk, SeenLevels, SweepLevels, DrainLevels, RecordAll, CleanLevels, BookBelow;
    ZeroDrain(side, price, lob.On(side.Opposite()));
    var c := SubmitLimit(side, price, 0, ts);
    var b, o, opp := e.book, OrderOf(c, e.nextId), side.Opposite();
    var levels := b.On(opp);
    var s := SweepLevels(o, levels);
    RecordAllTrades(b.With(opp, s.levels), o, s.fills);
    NoStopsRecorded(b.With(opp, s.levels), o, s.fills);
    assert SimpleTrades(side, lob.nextId, []) == [];
    TradesOfNumbered(b.nextTradeId, o, s.fills);
    ZeroSweep(o, levels, b.active);
  }
}
