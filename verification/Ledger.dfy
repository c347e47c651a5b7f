/** Conservation of quantity: what an order loses in leaves, trades account for. */
module Ledger {
  import opened Orders
  import opened BookSpec
  import opened BookInvariants
  import opened Transparency
  import opened StopCascade

  function LeavesIn(queue: seq<OrderState>, id: nat): nat {
    if queue == [] then 0 else (if queue[0].id == id then queue[0].leaves else 0) + LeavesIn(queue[1..], id)
  }

  function LeavesOn(levels: seq<Level>, id: nat): nat {
    if levels == [] then 0 else LeavesIn(levels[0].queue, id) + LeavesOn(levels[1..], id)
  }

  /** What the orders with this id may still trade, wherever the book keeps them. */
  function Outstanding(b: Book, id: nat): nat {
    LeavesOn(b.bids, id) + LeavesOn(b.asks, id) + LeavesIn(b.pending, id) + LeavesIn(b.triggered, id)
  }

  function TradedBy(trades: seq<Trade>, id: nat): nat {
    if trades == [] then 0
    else (if trades[0].buyId == id || trades[0].sellId == id then trades[0].qty else 0) + TradedBy(trades[1..], id)
  }

  /** What the fills take from the resting order `id`, and from all. */
  function Taken(fills: seq<Fill>, id: nat): nat {
    if fills == [] then 0 else (if fills[0].id == id then fills[0].qty else 0) + Taken(fills[1..], id)
  }

  function TakenAll(fills: seq<Fill>): nat {
    if fills == [] then 0 else fills[0].qty + TakenAll(fills[1..])
  }

  /** Quantity that leaves the book without a trade. */
  datatype Lost = Lost(id: nat, qty: nat)

  function LostBy(lost: seq<Lost>, id: nat): nat {
    if lost == [] then 0 else (if lost[0].id == id then lost[0].qty else 0) + LostBy(lost[1..], id)
  }

  function LostIds(lost: seq<Lost>): set<nat> {
    set l | l in lost :: l.id
  }

  lemma {:induction false} LostConcat(a: seq<Lost>, b: seq<Lost>, id: nat)
    ensures LostBy(a + b, id) == LostBy(a, id) + LostBy(b, id)
    ensures LostIds(a + b) == LostIds(a) + LostIds(b)
  {
    if a == [] {
      assert a + b == b;
    } else {
      assert (a + b)[1..] == a[1..] + b;
      LostConcat(a[1..], b, id);
    }
  }

  lemma {:induction false} LostNone(lost: seq<Lost>, id: nat)
    requires id !in LostIds(lost)
    ensures LostBy(lost, id) == 0
  {
    if lost != [] {
      assert lost[0] in lost;
      LostNone(lost[1..], id);
    }
  }

  lemma {:induction false} LeavesConcat(a: seq<OrderState>, b: seq<OrderState>, id: nat)
    ensures LeavesIn(a + b, id) == LeavesIn(a, id) + LeavesIn(b, id)
  {
    if a == [] {
      assert a + b == b;
    } else {
      assert (a + b)[1..] == a[1..] + b;
      LeavesConcat(a[1..], b, id);
    }
  }

  lemma {:induction false} TradedConcat(a: seq<Trade>, b: seq<Trade>, id: nat)
    ensures TradedBy(a + b, id) == TradedBy(a, id) + TradedBy(b, id)
  {
    if a == [] {
      assert a + b == b;
    } else {
      assert (a + b)[1..] == a[1..] + b;
      TradedConcat(a[1..], b, id);
    }
  }

  lemma {:induction false} TakenConcat(a: seq<Fill>, b: seq<Fill>, id: nat)
    ensures Taken(a + b, id) == Taken(a, id) + Taken(b, id)
    ensures TakenAll(a + b) == TakenAll(a) + TakenAll(b)
  {
    if a == [] {
      assert a + b == b;
    } else {
      assert (a + b)[1..] == a[1..] + b;
      TakenConcat(a[1..], b, id);
    }
  }

  lemma {:induction false} LeavesNone(queue: seq<OrderState>, id: nat)
    requires id !in IdsOf(queue)
    ensures LeavesIn(queue, id) == 0
  {
    if queue != [] {
      assert queue[0] in queue;
      LeavesNone(queue[1..], id);
    }
  }

  lemma {:induction false} LevelsNone(levels: seq<Level>, id: nat)
    requires id !in LevelIds(levels)
    ensures LeavesOn(levels, id) == 0
  {
    if levels != [] {
      assert levels[0] in levels;
      LeavesNone(levels[0].queue, id);
      LevelsNone(levels[1..], id);
    }
  }

  // ----- one sweep -----

  /** The leaves of the orders the inner loop drops because they show nothing. */
  function DroppedFrom(agg: OrderState, price: int, queue: seq<OrderState>): seq<Lost>
    decreases |queue|, if agg.IsActive() then agg.leaves + 1 else 0
  {
    if !agg.IsActive() || queue == [] then []
    else if queue[0].VisibleQty() == 0 then [Lost(queue[0].id, queue[0].leaves)] + DroppedFrom(agg, price, queue[1..])
    else
      var qty := Min(agg.leaves, queue[0].VisibleQty());
      DroppedFrom(FilledBy(agg, qty), price, AfterFront(queue, qty))
  }

  /** The same for the whole sweep. */
  function DroppedBy(agg: OrderState, levels: seq<Level>): seq<Lost>
    decreases |levels|
  {
    if !agg.IsActive() || levels == [] || !Reaches(agg, levels[0].price) then []
    else
      var s := SweepQueue(agg, levels[0].price, levels[0].queue);
      DroppedFrom(agg, levels[0].price, levels[0].queue) + if s.queue == [] then DroppedBy(s.agg, levels[1..]) else []
  }

  predicate SoundQueue(queue: seq<OrderState>) {
    forall o | o in queue :: Sound(o)
  }

  predicate SoundLevels(levels: seq<Level>) {
    forall l | l in levels :: SoundQueue(l.queue)
  }

  lemma SideSound(side: Side, levels: seq<Level>, active: map<nat, Ref>)
    requires SideOk(side, levels, active)
    ensures SoundLevels(levels)
  {
    forall l | l in levels ensures SoundQueue(l.queue) { assert LevelOk(side, l, active); }
  }

  lemma AfterFrontSound(queue: seq<OrderState>, qty: nat)
    requires queue != [] && SoundQueue(queue) && 0 < queue[0].VisibleQty() && qty <= queue[0].VisibleQty()
    ensures SoundQueue(AfterFront(queue, qty))
  {
    assert queue[0] in queue && forall o | o in queue[1..] :: o in queue;
    TradedKeeps(queue[0], qty);
  }

  lemma {:induction false} AfterFrontLedger(queue: seq<OrderState>, qty: nat, id: nat)
    requires queue != [] && Sound(queue[0]) && 0 < queue[0].VisibleQty() && qty <= queue[0].VisibleQty()
    ensures LeavesIn(AfterFront(queue, qty), id) + (if queue[0].id == id then qty else 0) == LeavesIn(queue, id)
  {
    TradedKeeps(queue[0], qty);
    var r1, next := Traded(queue[0], qty), AfterFront(queue, qty);
    if r1.IsFilled() {
      assert next == queue[1..];
    } else {
      assert next[1..] == queue[1..];
    }
  }

  lemma FilledLive(agg: OrderState, qty: nat)
    requires Live(agg) && qty <= agg.leaves
    ensures Live(FilledBy(agg, qty)) && FilledBy(agg, qty).leaves == agg.leaves - qty
  {
  }

  /** What a level loses is traded or dropped, order by order; what the aggressor loses is traded. */
  lemma {:induction false} SweepQueueLedger(agg: OrderState, price: int, queue: seq<OrderState>, id: nat)
    requires Live(agg) && SoundQueue(queue)
    ensures var s := SweepQueue(agg, price, queue);
            && LeavesIn(s.queue, id) + Taken(s.fills, id) + LostBy(DroppedFrom(agg, price, queue), id)
               == LeavesIn(queue, id)
            && s.agg.leaves + TakenAll(s.fills) == agg.leaves
    decreases |queue|, if agg.IsActive() then agg.leaves + 1 else 0
  {
    hide Traded, FilledBy, AfterFront, Sound;
    if agg.IsActive() && queue != [] {
      var r, rest := queue[0], queue[1..];
      assert r in queue && forall o | o in rest :: o in queue;
      if r.VisibleQty() == 0 {
        SweepQueueLedger(agg, price, rest, id);
        LostConcat([Lost(r.id, r.leaves)], DroppedFrom(agg, price, rest), id);
      } else {
        var qty := Min(agg.leaves, r.VisibleQty());
        SweepStep(agg, price, queue);
        SweepShrinks(agg, queue);
        FilledLive(agg, qty);
        AfterFrontSound(queue, qty);
        AfterFrontLedger(queue, qty, id);
        var next := SweepQueue(FilledBy(agg, qty), price, AfterFront(queue, qty));
        SweepQueueLedger(FilledBy(agg, qty), price, AfterFront(queue, qty), id);
        TakenConcat([Fill(r.id, price, qty, Traded(r, qty).IsFilled())], next.fills, id);
      }
    }
  }

  lemma {:induction false} SweepLevelsLedger(agg: OrderState, levels: seq<Level>, id: nat)
    requires Live(agg) && SoundLevels(levels)
    ensures var s := SweepLevels(agg, levels);
            && LeavesOn(s.levels, id) + Taken(s.fills, id) + LostBy(DroppedBy(agg, levels), id) == LeavesOn(levels, id)
            && s.agg.leaves + TakenAll(s.fills) == agg.leaves
    decreases |levels|
  {
    hide SweepQueue, DroppedFrom, SoundQueue;
    if agg.IsActive() && levels != [] && Reaches(agg, levels[0].price) {
      assert levels[0] in levels && forall l | l in levels[1..] :: l in levels;
      var p, q, tail := levels[0].price, levels[0].queue, levels[1..];
      var s := SweepQueue(agg, p, q);
      SweepQueueLedger(agg, p, q, id);
      SweepQueueAgg(agg, p, q);
      if s.queue == [] {
        SweepLevelsLedger(s.agg, tail, id);
        TakenConcat(s.fills, SweepLevels(s.agg, tail).fills, id);
        LostConcat(DroppedFrom(agg, p, q), DroppedBy(s.agg, tail), id);
        LeavesIgnored(id);
      } else {
        assert ([Level(p, s.queue)] + tail)[1..] == tail;
        LostConcat(DroppedFrom(agg, p, q), [], id);
      }
    }
  }

  lemma {:induction false} LeavesIgnored(id: nat)
    ensures LeavesIn([], id) == 0
  {
  }

  /** A clean side drops nobody. */
  lemma {:induction false} CleanQueueDropsNone(agg: OrderState, price: int, queue: seq<OrderState>)
    requires CleanQueue(queue)
    ensures DroppedFrom(agg, price, queue) == []
    decreases |queue|, if agg.IsActive() then agg.leaves + 1 else 0
  {
    hide Traded, FilledBy, AfterFront, Sound;
    if agg.IsActive() && queue != [] {
      assert queue[0] in queue;
      var qty := Min(agg.leaves, queue[0].VisibleQty());
      SweepShrinks(agg, queue);
      AfterFrontClean(queue, qty);
      CleanQueueDropsNone(FilledBy(agg, qty), price, AfterFront(queue, qty));
    }
  }

  lemma {:induction false} CleanSideDropsNone(agg: OrderState, levels: seq<Level>)
    requires CleanLevels(levels)
    ensures DroppedBy(agg, levels) == []
    decreases |levels|
  {
    hide SweepQueue, DroppedFrom, CleanQueue;
    if agg.IsActive() && levels != [] && Reaches(agg, levels[0].price) {
      assert levels[0] in levels && forall l | l in levels[1..] :: l in levels;
      CleanQueueDropsNone(agg, levels[0].price, levels[0].queue);
      CleanSideDropsNone(SweepQueue(agg, levels[0].price, levels[0].queue).agg, levels[1..]);
    }
  }

  /** Who is dropped was on the level and is on it no more. */
  lemma {:induction false} DroppedApart(agg: OrderState, side: Side, price: int, queue: seq<OrderState>,
                                        active: map<nat, Ref>)
    requires QueueOk(side, price, queue, active)
    ensures var lost, s := DroppedFrom(agg, price, queue), SweepQueue(agg, price, queue);
            LostIds(lost) <= IdsOf(queue) && LostIds(lost) !! IdsOf(s.queue) && IdsOf(s.queue) <= IdsOf(queue)
    decreases |queue|, if agg.IsActive() then agg.leaves + 1 else 0
  {
    hide Traded, FilledBy, AfterFront, Sound;
    if agg.IsActive() && queue != [] {
      var r, rest := queue[0], queue[1..];
      assert r in queue;
      FrontSplit(queue);
      if r.VisibleQty() == 0 {
        DroppedApart(agg, side, price, rest, active);
        SweepQueueOk(agg, side, price, rest, active);
        LostConcat([Lost(r.id, r.leaves)], DroppedFrom(agg, price, rest), r.id);
        assert LostIds([Lost(r.id, r.leaves)]) == {r.id};
      } else {
        var qty := Min(agg.leaves, r.VisibleQty());
        SweepStep(agg, price, queue);
        SweepShrinks(agg, queue);
        AfterFrontOk(side, price, queue, active, qty);
        DroppedApart(FilledBy(agg, qty), side, price, AfterFront(queue, qty), active);
      }
    }
  }

  lemma {:induction false} DroppedSideApart(agg: OrderState, side: Side, levels: seq<Level>, active: map<nat, Ref>)
    requires SideOk(side, levels, active) && Live(agg)
    ensures var lost, s := DroppedBy(agg, levels), SweepLevels(agg, levels);
            && LostIds(lost) <= LevelIds(levels) && LostIds(lost) !! LevelIds(s.levels)
            && LevelIds(s.levels) <= LevelIds(levels)
    decreases |levels|
  {
    hide SweepQueue, DroppedFrom, LevelOk, LevelIds, IdsOf, Sorted;
    SweepLevelsOk(agg, side, levels, active);
    if agg.IsActive() && levels != [] && Reaches(agg, levels[0].price) {
      var p, q, tail := levels[0].price, levels[0].queue, levels[1..];
      var s := SweepQueue(agg, p, q);
      SideTail(side, levels, active);
      LevelsApart(side, levels, active);
      LevelQueueOk(side, levels[0], active);
      DroppedApart(agg, side, p, q, active);
      SweepQueueOk(agg, side, p, q, active);
      SweepQueueAgg(agg, p, q);
      if s.queue == [] {
        DroppedSideApart(s.agg, side, tail, active);
        LostConcat(DroppedFrom(agg, p, q), DroppedBy(s.agg, tail), 0);
      } else {
        LostConcat(DroppedFrom(agg, p, q), [], 0);
        LevelIdsJoin(Level(p, s.queue), tail);
      }
    }
  }

  lemma LevelQueueOk(side: Side, l: Level, active: map<nat, Ref>)
    requires LevelOk(side, l, active)
    ensures QueueOk(side, l.price, l.queue, active)
  {
  }

  lemma LevelIdsJoin(l: Level, rest: seq<Level>)
    ensures LevelIds([l] + rest) == IdsOf(l.queue) + LevelIds(rest) && LostIds([]) == {}
  {
    assert l in [l] + rest;
  }

  // ----- recording, resting -----

  /** The recorded trades, numbered from the book's counter on. */
  lemma {:induction false} RecordAllTrades(b: Book, agg: OrderState, fills: seq<Fill>)
    ensures var r := RecordAll(b, agg, fills);
            && r.trades == b.trades + TradesOf(b.nextTradeId, agg, fills)
            && r.nextTradeId == b.nextTradeId + |fills|
            && r.bids == b.bids && r.asks == b.asks
    decreases |fills|
  {
    if fills != [] {
      RecordAllTrades(Record(b, agg, fills[0]), agg, fills[1..]);
    }
  }

  /** Recording moves stops, but their leaves with them. */
  lemma {:induction false} RecordAllLeaves(b: Book, agg: OrderState, fills: seq<Fill>, id: nat)
    ensures var r := RecordAll(b, agg, fills);
            LeavesIn(r.pending, id) + LeavesIn(r.triggered, id) == LeavesIn(b.pending, id) + LeavesIn(b.triggered, id)
    decreases |fills|
  {
    if fills != [] {
      StopLeaves(b.pending, fills[0].price, id);
      LeavesConcat(b.triggered, Firing(b.pending, fills[0].price), id);
      RecordAllLeaves(Record(b, agg, fills[0]), agg, fills[1..], id);
    }
  }

  lemma {:induction false} StopLeaves(stops: seq<OrderState>, last: int, id: nat)
    ensures LeavesIn(Holding(stops, last), id) + LeavesIn(Firing(stops, last), id) == LeavesIn(stops, id)
  {
    if stops != [] {
      StopLeaves(stops[1..], last, id);
      LeavesConcat(if Fires(stops[0], last) then [] else [stops[0]], Holding(stops[1..], last), id);
      LeavesConcat(if Fires(stops[0], last) then [TriggeredOrder(stops[0])] else [], Firing(stops[1..], last), id);
    }
  }

  lemma {:induction false} TradesOfLedger(tradeId: nat, agg: OrderState, fills: seq<Fill>, id: nat)
    requires forall f | f in fills :: f.id != agg.id
    ensures TradedBy(TradesOf(tradeId, agg, fills), id) == if id == agg.id then TakenAll(fills) else Taken(fills, id)
    decreases |fills|
  {
    if fills != [] {
      assert fills[0] in fills;
      TradesOfLedger(tradeId + 1, agg, fills[1..], id);
    }
  }

  lemma {:induction false} AddOrderLeaves(side: Side, levels: seq<Level>, o: OrderState, id: nat)
    ensures LeavesOn(AddOrder(side, levels, o), id) == LeavesOn(levels, id) + (if id == o.id then o.leaves else 0)
    decreases |levels|
  {
    if levels == [] || Better(side, o.price, levels[0].price) {
      assert ([Level(o.price, [o])] + levels)[1..] == levels;
      assert LeavesIn([o], id) == (if o.id == id then o.leaves else 0) + LeavesIn([], id);
    } else if levels[0].price == o.price {
      LeavesConcat(levels[0].queue, [o], id);
      assert AddOrder(side, levels, o)[1..] == levels[1..];
    } else {
      AddOrderLeaves(side, levels[1..], o, id);
      assert AddOrder(side, levels, o)[1..] == AddOrder(side, levels[1..], o);
    }
  }

  // ----- one aggressor -----

  /** Between `b` and `r` what `id` may still trade grew by `more`, and fell by what it traded and what it lost. */
  predicate Balanced(b: Book, r: Book, lost: seq<Lost>, id: nat, more: nat) {
    && b.trades <= r.trades
    && Outstanding(r, id) + TradedBy(r.trades[|b.trades|..], id) + LostBy(lost, id) == Outstanding(b, id) + more
  }

  lemma BalancedTrans(a: Book, b: Book, c: Book, lost: seq<Lost>, lost': seq<Lost>, id: nat, more: nat, more': nat)
    requires Balanced(a, b, lost, id, more) && Balanced(b, c, lost', id, more')
    ensures Balanced(a, c, lost + lost', id, more + more')
  {
    var t1, t2 := b.trades[|a.trades|..], c.trades[|b.trades|..];
    assert c.trades[|a.trades|..] == t1 + t2;
    TradedConcat(t1, t2, id);
    LostConcat(lost, lost', id);
  }

  lemma BalancedRefl(b: Book, id: nat)
    ensures Balanced(b, b, [], id, 0)
  {
    assert b.trades[|b.trades|..] == [];
  }

  /** What is lost while `o` is matched: the orders its sweep drops, and its own remainder if it may not rest. */
  function LostOne(b: Book, o: OrderState): seq<Lost> {
    var opp := o.side.Opposite();
    DroppedBy(o, b.On(opp)) + if o.kind.Market? then [Lost(o.id, SweepLevels(o, b.On(opp)).agg.leaves)] else []
  }

  function LostBatch(b: Book, batch: seq<OrderState>): seq<Lost>
    decreases |batch|
  {
    if batch == [] then [] else LostOne(b, batch[0]) + LostBatch(MatchOne(b, batch[0]), batch[1..])
  }

  function LostCascade(b: Book): seq<Lost>
    decreases |b.pending| + |b.triggered|
  {
    if b.triggered == [] then []
    else
      var b0 := b.(triggered := []);
      LostBatch(b0, b.triggered) + LostCascade(RunBatch(b0, b.triggered))
  }

  /** What is lost while `match` handles `o` and the stops it sets off. */
  function LostIn(b: Book, o: OrderState): seq<Lost> {
    if o.kind.StopLoss? && !o.triggered then [] else LostOne(b, o) + LostCascade(MatchOne(b, o))
  }

  /** Recording does not touch the levels; it moves stops and appends the trades. */
  lemma {:induction false} RecordedLedger(b: Book, o: OrderState, fills: seq<Fill>, id: nat)
    requires forall f | f in fills :: f.id != o.id
    ensures var r := RecordAll(b, o, fills);
            && b.trades <= r.trades && r.bids == b.bids && r.asks == b.asks
            && Outstanding(r, id) == Outstanding(b, id)
            && TradedBy(r.trades[|b.trades|..], id) == if id == o.id then TakenAll(fills) else Taken(fills, id)
  {
    hide RecordAll, TradesOf, LeavesOn, LeavesIn, TradedBy, Taken, TakenAll;
    RecordAllTrades(b, o, fills);
    RecordAllLeaves(b, o, fills, id);
    TradesOfLedger(b.nextTradeId, o, fills, id);
    assert RecordAll(b, o, fills).trades[|b.trades|..] == TradesOf(b.nextTradeId, o, fills);
  }

  /** The sweep of the opposite side, before anything is recorded. */
  lemma {:induction false} SweptSide(b: Book, batch: seq<OrderState>, o: OrderState, id: nat)
    requires ConsistentWith(b, batch) && Fresh(o) && Unused(b, batch, o.id)
    ensures var opp := o.side.Opposite(); var s := SweepLevels(o, b.On(opp));
      && (forall f | f in s.fills :: f.id != o.id) && o.id !in LevelIds(b.On(opp))
      && s.agg.leaves + TakenAll(s.fills) == o.leaves
      && s.agg.id == o.id && s.agg.kind == o.kind && s.agg.side == o.side
      && LeavesOn(s.levels, id) + Taken(s.fills, id) + LostBy(DroppedBy(o, b.On(opp)), id) == LeavesOn(b.On(opp), id)
  {
    hide SweepLevels, LeavesOn, Taken, TakenAll, DroppedBy, LevelOk, Sorted, StopsOk, LevelIds;
    var opp := o.side.Opposite();
    SweepLevelsOk(o, opp, b.On(opp), b.active);
    SideSound(opp, b.On(opp), b.active);
    SweepLevelsLedger(o, b.On(opp), id);
    SidesApart(b, batch);
  }

  /** The book after the loops, before the remainder rests. */
  lemma {:induction false} SweptLedger(b: Book, batch: seq<OrderState>, o: OrderState, id: nat)
    requires ConsistentWith(b, batch) && Fresh(o) && Unused(b, batch, o.id)
    ensures var s, lost := SweepLevels(o, b.On(o.side.Opposite())), DroppedBy(o, b.On(o.side.Opposite()));
      && s.agg.leaves <= o.leaves && s.agg.id == o.id && s.agg.kind == o.kind && s.agg.side == o.side
      && Balanced(b, Swept(b, o), lost, id, if id == o.id then o.leaves - s.agg.leaves else 0)
    ensures Swept(b, o).On(o.side) == b.On(o.side)
  {
    hide SweepLevels, RecordAll, LeavesOn, LeavesIn, Taken, TakenAll, DroppedBy, LostBy, ConsistentWith, TradedBy,
        LevelIds;
    var opp := o.side.Opposite();
    var s := SweepLevels(o, b.On(opp));
    SweptSide(b, batch, o, id);
    RecordedLedger(b.With(opp, s.levels), o, s.fills, id);
    if id == o.id {
      LevelsNone(b.On(opp), id);
    }
  }

  lemma {:induction false} LostSingle(l: Lost, id: nat)
    ensures LostBy([l], id) == if l.id == id then l.qty else 0
    ensures LostIds([l]) == {l.id}
    ensures LostIds([]) == {}
  {
    assert LostBy([l], id) == (if l.id == id then l.qty else 0) + LostBy([], id);
  }

  /** A remainder rests with its leaves, or is a market order's and is lost. */
  lemma RestLedger(b: Book, a: OrderState, id: nat)
    ensures Rest(b, a).trades == b.trades
    ensures Outstanding(Rest(b, a), id) == Outstanding(b, id) + if id == a.id && !a.kind.Market? then a.leaves else 0
  {
    hide AddOrder, LeavesOn, LeavesIn;
    AddOrderLeaves(a.side, b.On(a.side), a, id);
  }

  /** One order matched against the opposite side, its remainder included. */
  lemma MatchOneLedger(b: Book, batch: seq<OrderState>, o: OrderState, id: nat)
    requires ConsistentWith(b, batch) && Fresh(o) && Unused(b, batch, o.id)
    ensures Balanced(b, MatchOne(b, o), LostOne(b, o), id, if id == o.id then o.leaves else 0)
  {
    hide SweepLevels, RecordAll, DroppedBy, Outstanding, TradedBy, ConsistentWith, Rest;
    var s, lost := SweepLevels(o, b.On(o.side.Opposite())), DroppedBy(o, b.On(o.side.Opposite()));
    SweptLedger(b, batch, o, id);
    RestLedger(Swept(b, o), s.agg, id);
    LostSingle(Lost(o.id, s.agg.leaves), id);
    LostConcat(lost, LostOne(b, o)[|lost|..], id);
    assert LostOne(b, o) == lost + LostOne(b, o)[|lost|..];
  }

  // ----- the cascade -----

  lemma {:induction false} RunBatchLedger(b: Book, batch: seq<OrderState>, id: nat)
    requires ConsistentWith(b, batch)
    ensures Balanced(b, RunBatch(b, batch), LostBatch(b, batch), id, LeavesIn(batch, id))
    decreases |batch|
  {
    hide MatchOne, LostOne, Outstanding, TradedBy, ConsistentWith;
    if batch == [] {
      BalancedRefl(b, id);
    } else {
      var o, rest := batch[0], batch[1..];
      var b1 := MatchOne(b, o);
      BatchTail(b, batch);
      MatchOneLedger(b, rest, o, id);
      MatchOneOk(b, rest, o);
      RunBatchLedger(b1, rest, id);
      BalancedTrans(b, b1, RunBatch(b1, rest), LostOne(b, o), LostBatch(b1, rest), id,
                    if id == o.id then o.leaves else 0, LeavesIn(rest, id));
    }
  }

  lemma {:induction false} CascadeLedger(b: Book, id: nat)
    requires ConsistentWith(b, [])
    ensures Balanced(b, Cascade(b), LostCascade(b), id, 0)
    decreases |b.pending| + |b.triggered|
  {
    hide RunBatch, LostBatch, TradedBy, LeavesOn;
    if b.triggered == [] {
      BalancedRefl(b, id);
    } else {
      var b0 := b.(triggered := []);
      var b1 := RunBatch(b0, b.triggered);
      RunBatchLedger(b0, b.triggered, id);
      RunBatchOk(b0, b.triggered);
      CascadeLedger(b1, id);
      BalancedTrans(b0, b1, Cascade(b1), LostBatch(b0, b.triggered), LostCascade(b1), id, LeavesIn(b.triggered, id), 0);
    }
  }

  lemma StopJoins(b: Book, o: OrderState, id: nat)
    ensures Balanced(b, b.(pending := b.pending + [o]), [], id, if id == o.id then o.leaves else 0)
  {
    hide LeavesOn;
    LeavesConcat(b.pending, [o], id);
    assert LeavesIn([o], id) == (if o.id == id then o.leaves else 0) + LeavesIn([], id);
    assert b.trades[|b.trades|..] == [];
  }

  /**
    match, for every book and order: each id keeps its quantity, in what it may still trade, what it traded and what
    was lost with it - dropped from a level with nothing visible, or left over from a market order.
   */
  lemma MatchLedger(b: Book, o: OrderState, id: nat)
    requires Consistent(b) && Fresh(o) && Unused(b, [], o.id)
    ensures Balanced(b, Match(b, o), LostIn(b, o), id, if id == o.id then o.leaves else 0)
  {
    hide MatchOne, LostOne, Outstanding, TradedBy, Cascade, LostCascade, ConsistentWith;
    if o.kind.StopLoss? && !o.triggered {
      StopJoins(b, o, id);
    } else {
      var b1 := MatchOne(b, o);
      MatchOneOk(b, [], o);
      MatchOneLedger(b, [], o, id);
      CascadeLedger(b1, id);
      BalancedTrans(b, b1, Cascade(b1), LostOne(b, o), LostCascade(b1), id, if id == o.id then o.leaves else 0, 0);
    }
  }

  // ----- what is lost is gone -----

  /** Everybody the book can still trade: on a level, waiting to fire, or waiting for its turn. */
  function PlacedIds(b: Book, batch: seq<OrderState>): set<nat> {
    LevelIds(b.bids) + LevelIds(b.asks) + IdsOf(b.pending) + IdsOf(b.triggered) + IdsOf(batch)
  }

  /** From `p` to `q` nobody is added, and nobody who lost something is left. */
  predicate Moves(p: set<nat>, q: set<nat>, lost: seq<Lost>) {
    q <= p && LostIds(lost) !! q
  }

  lemma MovesTrans(p: set<nat>, q: set<nat>, r: set<nat>, lost: seq<Lost>, lost': seq<Lost>)
    requires Moves(p, q, lost) && Moves(q, r, lost')
    ensures Moves(p, r, lost + lost')
  {
    LostConcat(lost, lost', 0);
  }

  lemma {:induction false} SweptPlaced(b: Book, batch: seq<OrderState>, o: OrderState)
    requires ConsistentWith(b, batch) && Fresh(o) && Unused(b, batch, o.id)
    ensures Moves(PlacedIds(b, batch), PlacedIds(Swept(b, o), batch), DroppedBy(o, b.On(o.side.Opposite())))
    ensures LostIds(DroppedBy(o, b.On(o.side.Opposite()))) <= b.active.Keys && o.id !in PlacedIds(b, batch)
    ensures Swept(b, o).On(o.side) == b.On(o.side)
  {
    hide SweepLevels, RecordAll, LevelOk, Sorted, LevelIds, DroppedBy, IdsOf;
    var opp := o.side.Opposite();
    var s := SweepLevels(o, b.On(opp));
    DroppedSideApart(o, opp, b.On(opp), b.active);
    RecordAllOk(b.With(opp, s.levels), batch, o, s.fills);
    SidesApart(b, batch);
    StopsUnknown(b, batch);
    assert b.On(Buy) == b.bids && b.On(Sell) == b.asks;
  }

  /** No stop that waits is known to `active_`. */
  lemma StopsUnknown(b: Book, batch: seq<OrderState>)
    requires ConsistentWith(b, batch)
    ensures b.active.Keys !! IdsOf(b.pending) + IdsOf(b.triggered) + IdsOf(batch)
  {
  }

  lemma {:induction false} MatchOnePlaced(b: Book, batch: seq<OrderState>, o: OrderState)
    requires ConsistentWith(b, batch) && Fresh(o) && Unused(b, batch, o.id)
    ensures Moves(PlacedIds(b, batch) + {o.id}, PlacedIds(MatchOne(b, o), batch), LostOne(b, o))
  {
    hide SweepLevels, RecordAll, SideOk, LevelIds, DroppedBy, IdsOf, AllStopsOk, Sound;
    var opp := o.side.Opposite();
    var s, lost := SweepLevels(o, b.On(opp)), DroppedBy(o, b.On(opp));
    SweptPlaced(b, batch, o);
    SweptOk(b, batch, o);
    SweepLevelsOk(o, opp, b.On(opp), b.active);
    AddOrderOk(o.side, b.On(o.side), s.agg, Swept(b, o).active);
    LostSingle(Lost(o.id, s.agg.leaves), 0);
    LostConcat(lost, LostOne(b, o)[|lost|..], 0);
    assert LostOne(b, o) == lost + LostOne(b, o)[|lost|..];
  }

  lemma {:induction false} RunBatchPlaced(b: Book, batch: seq<OrderState>)
    requires ConsistentWith(b, batch)
    ensures Moves(PlacedIds(b, batch), PlacedIds(RunBatch(b, batch), []), LostBatch(b, batch))
    decreases |batch|
  {
    hide MatchOne, LostOne, ConsistentWith, LevelIds;
    if batch != [] {
      var o, rest := batch[0], batch[1..];
      var b1 := MatchOne(b, o);
      BatchTail(b, batch);
      IdsConcat([o], rest);
      assert batch == [o] + rest && IdsOf([o]) == {o.id};
      MatchOnePlaced(b, rest, o);
      MatchOneOk(b, rest, o);
      RunBatchPlaced(b1, rest);
      MovesTrans(PlacedIds(b, batch), PlacedIds(b1, rest), PlacedIds(RunBatch(b1, rest), []), LostOne(b, o),
                 LostBatch(b1, rest));
    }
  }

  lemma {:induction false} CascadePlaced(b: Book)
    requires ConsistentWith(b, [])
    ensures Moves(PlacedIds(b, []), PlacedIds(Cascade(b), []), LostCascade(b))
    decreases |b.pending| + |b.triggered|
  {
    hide RunBatch, LostBatch, LevelIds;
    if b.triggered != [] {
      var b0 := b.(triggered := []);
      var b1 := RunBatch(b0, b.triggered);
      RunBatchPlaced(b0, b.triggered);
      RunBatchOk(b0, b.triggered);
      CascadePlaced(b1);
      MovesTrans(PlacedIds(b, []), PlacedIds(b1, []), PlacedIds(Cascade(b1), []), LostBatch(b0, b.triggered),
                 LostCascade(b1));
    }
  }

  /** match places nobody but the submitted order, and who loses quantity in it is placed nowhere afterwards. */
  lemma MatchPlaced(b: Book, o: OrderState)
    requires Consistent(b) && Fresh(o) && Unused(b, [], o.id)
    ensures Moves(PlacedIds(b, []) + {o.id}, PlacedIds(Match(b, o), []), LostIn(b, o))
  {
    hide MatchOne, LostOne, Cascade, LostCascade, ConsistentWith, LevelIds;
    if o.kind.StopLoss? && !o.triggered {
      IdsConcat(b.pending, [o]);
      assert IdsOf([o]) == {o.id};
    } else {
      var b1 := MatchOne(b, o);
      MatchOneOk(b, [], o);
      MatchOnePlaced(b, [], o);
      CascadePlaced(b1);
      MovesTrans(PlacedIds(b, []) + {o.id}, PlacedIds(b1, []), PlacedIds(Cascade(b1), []), LostOne(b, o),
                 LostCascade(b1));
    }
  }
}
