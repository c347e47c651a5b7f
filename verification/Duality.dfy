/** Buying and selling are mirror images: negate all prices, exchange the sides, and every run commutes with that. */
module Duality {
  import opened Orders
  import opened BookSpec
  import opened EngineSpec

  function MirrorOrder(o: OrderState): OrderState {
    o.(side := o.side.Opposite(), price := -o.price, triggerPrice := -o.triggerPrice)
  }

  function MirrorQueue(queue: seq<OrderState>): (m: seq<OrderState>)
    ensures |m| == |queue|
  {
    if queue == [] then [] else [MirrorOrder(queue[0])] + MirrorQueue(queue[1..])
  }

  function MirrorLevels(levels: seq<Level>): (m: seq<Level>)
    ensures |m| == |levels|
  {
    if levels == [] then [] else [Level(-levels[0].price, MirrorQueue(levels[0].queue))] + MirrorLevels(levels[1..])
  }

  function MirrorRef(r: Ref): Ref {
    Ref(r.side.Opposite(), r.kind, -r.price)
  }

  function MirrorActive(active: map<nat, Ref>): map<nat, Ref> {
    map id | id in active :: MirrorRef(active[id])
  }

  function MirrorTrade(t: Trade): Trade {
    Trade(t.tradeId, t.sellId, t.buyId, -t.price, t.qty, t.timestamp)
  }

  function MirrorTrades(trades: seq<Trade>): seq<Trade> {
    if trades == [] then [] else [MirrorTrade(trades[0])] + MirrorTrades(trades[1..])
  }

  function MirrorFills(fills: seq<Fill>): (m: seq<Fill>)
    ensures |m| == |fills|
  {
    if fills == [] then [] else [fills[0].(price := -fills[0].price)] + MirrorFills(fills[1..])
  }

  function MirrorBook(b: Book): Book {
    Book(MirrorLevels(b.asks), MirrorLevels(b.bids), MirrorActive(b.active),
         MirrorQueue(b.pending), MirrorQueue(b.triggered), MirrorTrades(b.trades), b.nextTradeId)
  }

  function MirrorCommand(c: Command): Command {
    match c
    case SubmitLimit(side, price, qty, ts) => SubmitLimit(side.Opposite(), -price, qty, ts)
    case SubmitMarket(side, qty, ts) => SubmitMarket(side.Opposite(), qty, ts)
    case SubmitIceberg(side, price, total, display, ts) => SubmitIceberg(side.Opposite(), -price, total, display, ts)
    case SubmitStop(side, trigger, limit, qty, ts) => SubmitStop(side.Opposite(), -trigger, -limit, qty, ts)
    case CancelOrder(id) => c
    case ModifyOrder(id, newPrice, newQty, ts) => ModifyOrder(id, -newPrice, newQty, ts)
  }

  function MirrorCommands(cs: seq<Command>): (m: seq<Command>)
    ensures |m| == |cs|
  {
    if cs == [] then [] else [MirrorCommand(cs[0])] + MirrorCommands(cs[1..])
  }

  function MirrorEngine(e: Engine): Engine {
    Engine(MirrorBook(e.book), e.nextId)
  }

  // ----- sequences -----

  lemma {:induction false} MirrorQueueConcat(a: seq<OrderState>, b: seq<OrderState>)
    ensures MirrorQueue(a + b) == MirrorQueue(a) + MirrorQueue(b)
  {
    if a == [] {
      assert a + b == b;
    } else {
      assert (a + b)[1..] == a[1..] + b;
      MirrorQueueConcat(a[1..], b);
    }
  }

  lemma {:induction false} MirrorLevelsCons(l: Level, levels: seq<Level>)
    ensures MirrorLevels([l] + levels) == [Level(-l.price, MirrorQueue(l.queue))] + MirrorLevels(levels)
  {
    assert ([l] + levels)[1..] == levels;
  }

  lemma {:induction false} MirrorLevelsHead(levels: seq<Level>)
    requires levels != []
    ensures MirrorLevels(levels)[0] == Level(-levels[0].price, MirrorQueue(levels[0].queue))
    ensures MirrorLevels(levels)[1..] == MirrorLevels(levels[1..])
  {
  }

  lemma {:induction false} MirrorQueueHead(queue: seq<OrderState>)
    requires queue != []
    ensures MirrorQueue(queue)[0] == MirrorOrder(queue[0]) && MirrorQueue(queue)[1..] == MirrorQueue(queue[1..])
  {
  }

  lemma MirrorQueueOne(o: OrderState)
    ensures MirrorQueue([o]) == [MirrorOrder(o)]
  {
  }

  lemma {:induction false} MirrorTradesConcat(a: seq<Trade>, b: seq<Trade>)
    ensures MirrorTrades(a + b) == MirrorTrades(a) + MirrorTrades(b)
  {
    if a == [] {
      assert a + b == b;
    } else {
      assert (a + b)[1..] == a[1..] + b;
      MirrorTradesConcat(a[1..], b);
    }
  }

  lemma {:induction false} MirrorFillsConcat(a: seq<Fill>, b: seq<Fill>)
    ensures MirrorFills(a + b) == MirrorFills(a) + MirrorFills(b)
  {
    if a == [] {
      assert a + b == b;
    } else {
      assert (a + b)[1..] == a[1..] + b;
      MirrorFillsConcat(a[1..], b);
    }
  }

  lemma {:induction false} MirrorFillsCons(f: Fill, fills: seq<Fill>)
    ensures MirrorFills([f] + fills) == [f.(price := -f.price)] + MirrorFills(fills)
  {
    assert ([f] + fills)[1..] == fills;
  }

  lemma MirrorNoFills()
    ensures MirrorFills([]) == []
  {
  }

  // ----- the loops -----

  lemma MirrorTraded(r: OrderState, qty: nat)
    ensures FilledBy(MirrorOrder(r), qty) == MirrorOrder(FilledBy(r, qty))
    ensures Traded(MirrorOrder(r), qty) == MirrorOrder(Traded(r, qty))
  {
  }

  lemma {:induction false} MirrorAfterFront(queue: seq<OrderState>, qty: nat)
    requires queue != []
    ensures MirrorQueue(queue) != [] && AfterFront(MirrorQueue(queue), qty) == MirrorQueue(AfterFront(queue, qty))
  {
    MirrorTraded(queue[0], qty);
    var r1 := Traded(queue[0], qty);
    assert MirrorQueue(queue)[1..] == MirrorQueue(queue[1..]);
    if r1.IsFilled() {
      assert AfterFront(queue, qty) == queue[1..];
    } else {
      MirrorQueueConcat([r1], queue[1..]);
      assert MirrorQueue([r1]) == [MirrorOrder(r1)] + MirrorQueue([]);
    }
  }

  lemma {:induction false} MirrorSweepQueue(agg: OrderState, price: int, queue: seq<OrderState>)
    ensures var s := SweepQueue(agg, price, queue);
            SweepQueue(MirrorOrder(agg), -price, MirrorQueue(queue)) ==
            QueueSweep(MirrorOrder(s.agg), MirrorQueue(s.queue), MirrorFills(s.fills))
    decreases |queue|, if agg.IsActive() then agg.leaves + 1 else 0
  {
    hide MirrorQueue, MirrorFills, FilledBy, Traded, AfterFront;
    MirrorNoFills();
    if agg.IsActive() && queue != [] {
      var r := queue[0];
      MirrorQueueHead(queue);
      if r.VisibleQty() == 0 {
        MirrorSweepQueue(agg, price, queue[1..]);
      } else {
        var qty := Min(agg.leaves, r.VisibleQty());
        MirrorTraded(r, qty);
        MirrorTraded(agg, qty);
        MirrorAfterFront(queue, qty);
        SweepShrinks(agg, queue);
        MirrorSweepQueue(FilledBy(agg, qty), price, AfterFront(queue, qty));
        var t := SweepQueue(FilledBy(agg, qty), price, AfterFront(queue, qty));
        MirrorFillsCons(Fill(r.id, price, qty, Traded(r, qty).IsFilled()), t.fills);
      }
    }
  }

  predicate MirrorSides(s: SideSweep, t: SideSweep) {
    t == SideSweep(MirrorOrder(s.agg), MirrorLevels(s.levels), MirrorFills(s.fills))
  }

  lemma {:induction false} MirrorSweepStops(agg: OrderState, levels: seq<Level>)
    requires !agg.IsActive() || levels == [] || !Reaches(agg, levels[0].price)
    ensures MirrorSides(SweepLevels(agg, levels), SweepLevels(MirrorOrder(agg), MirrorLevels(levels)))
  {
  }

  lemma {:induction false} MirrorSweepLevels(agg: OrderState, levels: seq<Level>)
    ensures MirrorSides(SweepLevels(agg, levels), SweepLevels(MirrorOrder(agg), MirrorLevels(levels)))
    decreases |levels|
  {
    if !agg.IsActive() || levels == [] || !Reaches(agg, levels[0].price) {
      MirrorSweepStops(agg, levels);
    } else {
      var p, q, tail := levels[0].price, levels[0].queue, levels[1..];
      var s := SweepQueue(agg, p, q);
      var m := MirrorLevels(levels);
      assert m[0] == Level(-p, MirrorQueue(q)) && m[1..] == MirrorLevels(tail);
      MirrorSweepQueue(agg, p, q);
      if s.queue == [] {
        MirrorSweepLevels(s.agg, tail);
        MirrorFillsConcat(s.fills, SweepLevels(s.agg, tail).fills);
      } else {
        MirrorLevelsCons(Level(p, s.queue), tail);
        assert SweepLevels(agg, levels) == SideSweep(s.agg, [Level(p, s.queue)] + tail, s.fills);
      }
    }
  }

  lemma {:induction false} MirrorStops(stops: seq<OrderState>, last: int)
    ensures Holding(MirrorQueue(stops), -last) == MirrorQueue(Holding(stops, last))
    ensures Firing(MirrorQueue(stops), -last) == MirrorQueue(Firing(stops, last))
  {
    if stops != [] {
      MirrorStops(stops[1..], last);
      assert MirrorQueue(stops)[1..] == MirrorQueue(stops[1..]);
      MirrorQueueConcat(if Fires(stops[0], last) then [] else [stops[0]], Holding(stops[1..], last));
      MirrorQueueConcat(if Fires(stops[0], last) then [TriggeredOrder(stops[0])] else [], Firing(stops[1..], last));
    }
  }

  // ----- recording -----

  lemma MirrorCheckStops(b: Book, last: int)
    ensures CheckStops(MirrorBook(b), -last) == MirrorBook(CheckStops(b, last))
  {
    MirrorStops(b.pending, last);
    MirrorQueueConcat(b.triggered, Firing(b.pending, last));
  }

  lemma MirrorRecord(b: Book, agg: OrderState, f: Fill)
    ensures Record(MirrorBook(b), MirrorOrder(agg), f.(price := -f.price)) == MirrorBook(Record(b, agg, f))
  {
    hide MirrorQueue, MirrorLevels;
    var t := TradeOf(b.nextTradeId, agg, f);
    var b1 := b.(trades := b.trades + [t], nextTradeId := b.nextTradeId + 1);
    var m, g := MirrorBook(b), f.(price := -f.price);
    assert TradeOf(b.nextTradeId, MirrorOrder(agg), g) == MirrorTrade(t);
    assert m.(trades := m.trades + [MirrorTrade(t)], nextTradeId := m.nextTradeId + 1) == MirrorBook(b1) by {
      MirrorTradesConcat(b.trades, [t]);
      assert MirrorTrades([t]) == [MirrorTrade(t)] + MirrorTrades([]);
    }
    MirrorCheckStops(b1, f.price);
    var b2 := CheckStops(b1, f.price);
    assert MirrorBook(b2).(active := MirrorActive(b.active) - {f.id})
        == MirrorBook(b2.(active := b2.active - {f.id})) by {
      MirrorActiveWithout(b.active, f.id);
    }
  }

  lemma {:induction false} MirrorRecordAll(b: Book, agg: OrderState, fills: seq<Fill>)
    ensures RecordAll(MirrorBook(b), MirrorOrder(agg), MirrorFills(fills)) == MirrorBook(RecordAll(b, agg, fills))
    decreases |fills|
  {
    if fills != [] {
      MirrorRecord(b, agg, fills[0]);
      MirrorRecordAll(Record(b, agg, fills[0]), agg, fills[1..]);
      assert MirrorFills(fills)[1..] == MirrorFills(fills[1..]);
    }
  }

  lemma {:induction false} MirrorAddOrder(side: Side, levels: seq<Level>, o: OrderState)
    ensures AddOrder(side.Opposite(), MirrorLevels(levels), MirrorOrder(o)) == MirrorLevels(AddOrder(side, levels, o))
    decreases |levels|
  {
    hide MirrorQueue, MirrorLevels;
    MirrorQueueOne(o);
    if levels == [] || Better(side, o.price, levels[0].price) {
      MirrorLevelsCons(Level(o.price, [o]), levels);
      if levels != [] { MirrorLevelsHead(levels); }
    } else {
      MirrorLevelsHead(levels);
      if levels[0].price == o.price {
        MirrorQueueConcat(levels[0].queue, [o]);
        MirrorLevelsCons(Level(o.price, levels[0].queue + [o]), levels[1..]);
      } else {
        MirrorAddOrder(side, levels[1..], o);
        MirrorLevelsCons(levels[0], AddOrder(side, levels[1..], o));
      }
    }
  }

  lemma MirrorAddToBook(b: Book, o: OrderState)
    ensures AddToBook(MirrorBook(b), MirrorOrder(o)) == MirrorBook(AddToBook(b, o))
  {
    MirrorAddOrder(o.side, b.On(o.side), o);
    var r := Ref(o.side, o.kind, o.price);
    assert MirrorActive(b.active[o.id := r]) == MirrorActive(b.active)[o.id := MirrorRef(r)];
  }

  /** One aggressor: matchSell is matchBuy in the mirror. */
  lemma MirrorMatchOne(b: Book, o: OrderState)
    ensures MatchOne(MirrorBook(b), MirrorOrder(o)) == MirrorBook(MatchOne(b, o))
  {
    hide MirrorLevels, MirrorQueue, MirrorTrades, MirrorActive, MirrorFills, SweepLevels, RecordAll, AddToBook;
    var opp := o.side.Opposite();
    var s := SweepLevels(o, b.On(opp));
    MirrorSweepLevels(o, b.On(opp));
    MirrorRecordAll(b.With(opp, s.levels), o, s.fills);
    MirrorAddToBook(RecordAll(b.With(opp, s.levels), o, s.fills), s.agg);
  }

  lemma {:induction false} MirrorRunBatch(b: Book, batch: seq<OrderState>)
    ensures RunBatch(MirrorBook(b), MirrorQueue(batch)) == MirrorBook(RunBatch(b, batch))
    decreases |batch|
  {
    if batch != [] {
      MirrorMatchOne(b, batch[0]);
      MirrorRunBatch(MatchOne(b, batch[0]), batch[1..]);
      assert MirrorQueue(batch)[1..] == MirrorQueue(batch[1..]);
    }
  }

  lemma {:induction false} MirrorCascade(b: Book)
    ensures Cascade(MirrorBook(b)) == MirrorBook(Cascade(b))
    decreases |b.pending| + |b.triggered|
  {
    if b.triggered != [] {
      MirrorRunBatch(b.(triggered := []), b.triggered);
      MirrorCascade(RunBatch(b.(triggered := []), b.triggered));
    }
  }

  /** match, for any book and any order. */
  lemma MirrorMatch(b: Book, o: OrderState)
    ensures Match(MirrorBook(b), MirrorOrder(o)) == MirrorBook(Match(b, o))
  {
    if o.kind.StopLoss? && !o.triggered {
      MirrorQueueConcat(b.pending, [o]);
      assert MirrorQueue([o]) == [MirrorOrder(o)] + MirrorQueue([]);
    } else {
      MirrorMatchOne(b, o);
      MirrorCascade(MatchOne(b, o));
    }
  }

  // ----- cancel, modify, runs -----

  lemma {:induction false} MirrorWithout(queue: seq<OrderState>, id: nat)
    ensures Without(MirrorQueue(queue), id) == MirrorQueue(Without(queue, id))
  {
    if queue != [] {
      MirrorWithout(queue[1..], id);
      assert MirrorQueue(queue)[1..] == MirrorQueue(queue[1..]);
      MirrorQueueConcat(if queue[0].id == id then [] else [queue[0]], Without(queue[1..], id));
    }
  }

  lemma {:induction false} MirrorRemoveOrder(levels: seq<Level>, price: int, id: nat)
    ensures RemoveOrder(MirrorLevels(levels), -price, id) == MirrorLevels(RemoveOrder(levels, price, id))
    decreases |levels|
  {
    if levels != [] {
      assert MirrorLevels(levels)[1..] == MirrorLevels(levels[1..]);
      if levels[0].price == price {
        MirrorWithout(levels[0].queue, id);
        MirrorLevelsCons(Level(price, Without(levels[0].queue, id)), levels[1..]);
      } else {
        MirrorRemoveOrder(levels[1..], price, id);
        MirrorLevelsCons(levels[0], RemoveOrder(levels[1..], price, id));
      }
    }
  }

  lemma MirrorActiveWithout(active: map<nat, Ref>, id: nat)
    ensures MirrorActive(active - {id}) == MirrorActive(active) - {id}
  {
  }

  lemma MirrorCancel(b: Book, id: nat)
    ensures Cancel(MirrorBook(b), id) == MirrorBook(Cancel(b, id))
  {
    if id in b.active {
      var r := b.active[id];
      var m := MirrorBook(b);
      MirrorRemoveOrder(b.On(r.side), r.price, id);
      MirrorActiveWithout(b.active, id);
      assert m.active[id] == MirrorRef(r) && m.On(r.side.Opposite()) == MirrorLevels(b.On(r.side));
    }
  }

  lemma MirrorModify(b: Book, id: nat, newPrice: int, newQty: nat, ts: int)
    ensures Modify(MirrorBook(b), id, -newPrice, newQty, ts) == MirrorBook(Modify(b, id, newPrice, newQty, ts))
  {
    if id in b.active {
      var r := b.active[id];
      MirrorCancel(b, id);
      MirrorAddToBook(Cancel(b, id), PlainOrder(id, ts, r.side, r.kind, newPrice, newQty));
    }
  }

  lemma MirrorSubmit(e: Engine, c: Command)
    requires IsSubmit(c)
    ensures Step(MirrorEngine(e), MirrorCommand(c)) == MirrorEngine(Step(e, c))
  {
    var o := OrderOf(c, e.nextId);
    assert OrderOf(MirrorCommand(c), e.nextId) == MirrorOrder(o);
    MirrorMatch(e.book, o);
  }

  lemma MirrorStep(e: Engine, c: Command)
    ensures Step(MirrorEngine(e), MirrorCommand(c)) == MirrorEngine(Step(e, c))
  {
    hide MirrorOrder, MirrorQueue, MirrorLevels, MirrorActive, Match, Cancel, Modify, MirrorBook;
    match c
    case CancelOrder(id) => MirrorCancel(e.book, id);
    case ModifyOrder(id, newPrice, newQty, ts) => MirrorModify(e.book, id, newPrice, newQty, ts);
    case _ => MirrorSubmit(e, c);
  }

  /** Duality of whole runs. */
  lemma {:induction false} MirrorRun(e: Engine, cs: seq<Command>)
    ensures Run(MirrorEngine(e), MirrorCommands(cs)) == MirrorEngine(Run(e, cs))
    decreases |cs|
  {
    if cs != [] {
      MirrorStep(e, cs[0]);
      MirrorRun(Step(e, cs[0]), cs[1..]);
      assert MirrorCommands(cs)[1..] == MirrorCommands(cs[1..]);
    }
  }
}
