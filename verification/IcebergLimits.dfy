/** Where icebergs behave, and exactly where they do not: wrapping displays, and remainders with nothing to show. */
module IcebergLimits {
  import opened Orders
  import opened BookSpec
  import opened BookInvariants
  import opened BaselineSpec
  import opened Transparency
  import opened Allocation
  import opened EngineSpec
  import opened EngineRuns

  // ----- the constructor's subtraction -----

  /** The order an iceberg command creates is sound exactly when its display does not exceed its total. */
  lemma IcebergSoundIff(id: nat, ts: int, side: Side, price: int, total: nat, display: nat)
    requires total < WORD && display < WORD
    ensures Sound(IcebergOrder(id, ts, side, price, total, display)) <==> display <= total
  {
    if display <= total {
      assert (total - display) % WORD == total - display;
    } else {
      assert (total - display) % WORD == total - display + WORD;
    }
  }

  /** One level with one order, which the trade finishes, or which shows nothing. */
  lemma {:induction false} SweepSingle(agg: OrderState, price: int, r: OrderState)
    requires agg.IsActive() && Reaches(agg, price)
    ensures var qty := Min(agg.leaves, r.VisibleQty());
            0 < r.VisibleQty() && Traded(r, qty).IsFilled() ==>
              SweepLevels(agg, [Level(price, [r])]) == SideSweep(FilledBy(agg, qty), [], [Fill(r.id, price, qty, true)])
    ensures r.VisibleQty() == 0 ==> SweepLevels(agg, [Level(price, [r])]) == SideSweep(agg, [], [])
  {
    var qty := Min(agg.leaves, r.VisibleQty());
    assert [r][1..] == [] && [Level(price, [r])][1..] == [];
    if 0 < r.VisibleQty() && Traded(r, qty).IsFilled() {
      SweepStep(agg, price, [r]);
      assert AfterFront([r], qty) == [];
      var f := Fill(r.id, price, qty, true);
      assert SweepQueue(FilledBy(agg, qty), price, []) == QueueSweep(FilledBy(agg, qty), [], []);
      assert SweepQueue(agg, price, [r]) == QueueSweep(FilledBy(agg, qty), [], [f]);
      assert SweepLevels(FilledBy(agg, qty), []) == SideSweep(FilledBy(agg, qty), [], []);
    } else if r.VisibleQty() == 0 {
      assert SweepQueue(agg, price, [r]) == SweepQueue(agg, price, []) == QueueSweep(agg, [], []);
      assert SweepLevels(agg, []) == SideSweep(agg, [], []);
    }
  }

  lemma {:induction false} RecordOne(b: Book, agg: OrderState, f: Fill)
    ensures RecordAll(b, agg, [f]) == Record(b, agg, f)
  {
    assert [f][1..] == [];
  }

  /** A display above the total sells more than the order ever had. */
  lemma WrappedIcebergOverfills(price: int, total: nat, display: nat, qty: nat, t1: int, t2: int)
    requires 0 < total < qty <= display < WORD
    ensures var r := Run(NewEngine, [SubmitIceberg(Sell, price, total, display, t1), SubmitLimit(Buy, price, qty, t2)]);
            |r.book.trades| == 1 && r.book.trades[0].sellId == 1 && r.book.trades[0].qty == qty > total
  {
    var c1, c2 := SubmitIceberg(Sell, price, total, display, t1), SubmitLimit(Buy, price, qty, t2);
    var o := OrderOf(c1, 1);
    var e1 := Step(NewEngine, c1);
    assert e1.book.asks == [Level(price, [o])];
    var agg := OrderOf(c2, 2);
    SweepSingle(agg, price, o);
    var f := Fill(1, price, qty, true);
    RecordOne(e1.book.With(Sell, []), agg, f);
    RunCons(NewEngine, c1, [c2]);
    RunCons(e1, c2, []);
    assert Run(Step(e1, c2), []) == Step(e1, c2);
    assert Step(e1, c2).book == Cascade(Record(e1.book.With(Sell, []), agg, f));
    assert Step(e1, c2).book.trades == [TradeOf(1, agg, f)];
  }

  /** In every reachable state what a resting order shows it still has, so no trade can exceed an order's leaves. */
  lemma {:induction false} NoOverfill(cs: seq<Command>, side: Side, l: Level, o: OrderState, qty: nat)
    requires AllLegal(cs) && l in Run(NewEngine, cs).book.On(side) && o in l.queue
    requires 0 < o.VisibleQty() && qty <= o.VisibleQty()
    ensures qty <= o.leaves && Traded(o, qty).leaves == o.leaves - qty
    ensures !Traded(o, qty).IsFilled() ==> 0 < Traded(o, qty).VisibleQty() <= Traded(o, qty).leaves
    ensures qty == o.VisibleQty() && !Traded(o, qty).IsFilled() ==>
        Traded(o, qty).display == Min(o.hidden, o.origDisplay)
  {
    NewEngineOk();
    RunOk(NewEngine, cs);
    assert LevelOk(side, l, Run(NewEngine, cs).book.active);
    TradedKeeps(o, qty);
  }

  // ----- an iceberg that crosses on entry -----

  /** Crossing draws on the display alone; the hidden part is never moved up. */
  lemma {:induction false} SweepQueueDisplay(agg: OrderState, price: int, queue: seq<OrderState>)
    requires Trading(agg) && agg.kind.Iceberg?
    ensures var a := SweepQueue(agg, price, queue).agg;
            && a.leaves <= agg.leaves
            && (0 < a.leaves ==> a.display == agg.display - Min(agg.display, agg.leaves - a.leaves))
    decreases |queue|, if agg.IsActive() then agg.leaves + 1 else 0
  {
    if agg.IsActive() && queue != [] {
      if queue[0].VisibleQty() == 0 {
        SweepQueueDisplay(agg, price, queue[1..]);
      } else {
        var qty := Min(agg.leaves, queue[0].VisibleQty());
        SweepStep(agg, price, queue);
        SweepQueueDisplay(FilledBy(agg, qty), price, AfterFront(queue, qty));
      }
    }
  }

  lemma {:induction false} SweepLevelsDisplay(agg: OrderState, levels: seq<Level>)
    requires Trading(agg) && agg.kind.Iceberg?
    ensures var a := SweepLevels(agg, levels).agg;
            && a.kind.Iceberg? && a.leaves <= agg.leaves
            && (0 < a.leaves ==> a.display == agg.display - Min(agg.display, agg.leaves - a.leaves))
    decreases |levels|
  {
    if agg.IsActive() && levels != [] && Reaches(agg, levels[0].price) {
      SweepQueueDisplay(agg, levels[0].price, levels[0].queue);
      SweepQueueKeeps(agg, levels[0].price, levels[0].queue);
      SweepLevelsDisplay(SweepQueue(agg, levels[0].price, levels[0].queue).agg, levels[1..]);
    }
  }

  /** What an order would trade on entry: its quantity, or all it can reach if that is less. */
  function TradesOnEntry(b: Book, o: OrderState): nat {
    Min(o.leaves, Total(Reachable(o.side, BoundOf(o), Line(SeenLevels(b.On(o.side.Opposite()))))))
  }

  /**
    An iceberg rests with something to show exactly when it trades less than its display, or all of itself, on entry.
   */
  lemma IcebergRestsCleanIff(b: Book, o: OrderState)
    requires Consistent(b) && CleanBook(b) && Fresh(o) && o.kind.Iceberg? && 0 < o.display && 0 < o.leaves
    ensures RestsClean(b, o) <==> TradesOnEntry(b, o) < o.display || TradesOnEntry(b, o) == o.leaves
  {
    hide LevelOk, QueueOk, Sorted, StopsOk, SweepLevels, RecordAll, Line, Reachable, Total;
    var opp := o.side.Opposite();
    GreedyFill(o, b.On(opp), b.active);
    SweepLevelsDisplay(o, b.On(opp));
    SweepLevelsOk(o, opp, b.On(opp), b.active);
  }

  /** Every other order rests clean. */
  lemma OthersRestClean(b: Book, o: OrderState)
    requires Consistent(b) && Fresh(o) && !o.kind.Iceberg?
    ensures RestsClean(b, o)
  {
    SweepLevelsOk(o, o.side.Opposite(), b.On(o.side.Opposite()), b.active);
  }

  /** The two halves of the next lemma: the iceberg rests invisible, and a later order drops it. */
  lemma DisplayFilledOnEntry(o1: OrderState, o2: OrderState)
    requires o1 == PlainOrder(1, 0, Sell, Limit, 100, 5) && o2 == IcebergOrder(2, 1, Buy, 100, 10, 5)
    ensures var b1 := Match(EmptyBook, o1);
            Match(b1, o2) == Book([Level(100, [FilledBy(o2, 5)])], [], map[2 := Ref(Buy, Iceberg, 100)], [], [],
                                  [Trade(1, 2, 1, 100, 5, 1)], 2)
  {
    var b1 := Match(EmptyBook, o1);
    var b1' := Book([], [Level(100, [o1])], map[1 := Ref(Sell, Limit, 100)], [], [], [], 1);
    assert b1 == b1';
    var f := Fill(1, 100, 5, true);
    SweepSingle(o2, 100, o1);
    RecordOne(b1'.With(Sell, []), o2, f);
    assert map[1 := Ref(Sell, Limit, 100)] - {1} == map[];
    var r := Record(b1'.With(Sell, []), o2, f);
    assert r == Book([], [], map[], [], [], [Trade(1, 2, 1, 100, 5, 1)], 2);
    assert MatchOne(b1', o2) == AddToBook(r, FilledBy(o2, 5));
  }

  lemma InvisibleIsDropped(b: Book, left: OrderState, o: OrderState)
    requires b.bids == [Level(100, [left])] && b.asks == [] && b.triggered == []
    requires left.VisibleQty() == 0 && Fresh(o) && o.side.Sell? && o.kind.Limit? && o.price == 100 && 0 < o.leaves
    ensures var r := Match(b, o);
            && r.bids == [] && r.asks == [Level(100, [o])] && r.trades == b.trades
            && r.active.Keys == b.active.Keys + {o.id}
  {
    SweepSingle(o, 100, left);
    assert MatchOne(b, o) == AddToBook(b.With(Buy, []), o);
  }

  /**
    An iceberg that fills its display on entry without completing: it rests invisible, the next order to meet it
    drops it from its level untraded, and `active_` goes on listing it.
   */
  lemma InvisibleIcebergStrays()
    ensures var cs := [SubmitLimit(Sell, 100, 5, 0), SubmitIceberg(Buy, 100, 10, 5, 1), SubmitLimit(Sell, 100, 3, 2)];
            var b := Run(NewEngine, cs).book;
            AllLegal(cs) && |b.trades| == 1 && b.bids == [] && 2 in b.active && !NoStrays(b)
  {
    hide MatchOne, Cascade, SweepLevels, RecordAll;
    var c1, c2, c3 := SubmitLimit(Sell, 100, 5, 0), SubmitIceberg(Buy, 100, 10, 5, 1), SubmitLimit(Sell, 100, 3, 2);
    var o1, o2, o3 := OrderOf(c1, 1), OrderOf(c2, 2), OrderOf(c3, 3);
    var e1 := Step(NewEngine, c1);
    var e2 := Step(e1, c2);
    DisplayFilledOnEntry(o1, o2);
    InvisibleIsDropped(e2.book, FilledBy(o2, 5), o3);
    RunCons(NewEngine, c1, [c2, c3]);
    RunCons(e1, c2, [c3]);
    RunCons(e2, c3, []);
    var e3 := Step(e2, c3);
    assert Run(e3, []) == e3;
    assert 2 !in LevelIds(e3.book.asks) && 2 !in LevelIds(e3.book.bids);
  }
}
