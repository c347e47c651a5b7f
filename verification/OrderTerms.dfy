/**
  What was agreed for one order - side, kind, price, quantity and, for an iceberg, the lot it shows - and that matching
  keeps to it: wherever the order is, in every trade it makes, through the cascade.
 */
module OrderTerms {
  import opened Orders
  import opened BookSpec
  import opened BookInvariants
  import opened Ledger

  /** What a submit agreed for the order `id`, or a later modify. */
  datatype Terms =
    Terms(id: nat, side: Side, kind: Kind, price: int, quantity: nat, display: nat, modified: bool)
  {
    /** It never rests without leaves: only an order modified to nothing does. */
    predicate Alive() {
      !modified || 0 < quantity
    }

    /** It never rests at all. */
    predicate Fleeting() {
      kind.Market? && !modified
    }
  }

  // ----- the lots of an iceberg -----

  /** An iceberg that shows something shows what is left of the lot its trades have reached. */
  predicate Lots(o: OrderState, lot: nat) {
    && o.origDisplay == lot && o.leaves <= o.quantity
    && (0 < o.display ==> 0 < lot && o.display == Min(o.leaves, lot - (o.quantity - o.leaves) % lot))
  }

  lemma ProductOrder(a: nat, b: nat, d: nat)
    ensures a <= b ==> a * d <= b * d
  {
  }

  lemma RemainderIs(n: nat, k: nat, r: nat, d: nat)
    requires r < d && n == k * d + r
    ensures n % d == r
  {
    var q := n / d;
    assert q * d <= n < (q + 1) * d && n == q * d + n % d;
    ProductOrder(q + 1, k, d);
    ProductOrder(k + 1, q, d);
  }

  /** Going on within a lot, or to its end. */
  lemma LotStep(traded: nat, qty: nat, lot: nat)
    requires 0 < lot && traded % lot + qty <= lot
    ensures (traded + qty) % lot == if traded % lot + qty == lot then 0 else traded % lot + qty
  {
    var k, r := traded / lot, traded % lot;
    assert traded == k * lot + r;
    if r + qty == lot {
      assert traded + qty == (k + 1) * lot;
      RemainderIs(traded + qty, k + 1, 0, lot);
    } else {
      RemainderIs(traded + qty, k, r + qty, lot);
    }
  }

  lemma TradedLots(r: OrderState, qty: nat, lot: nat)
    requires Sound(r) && r.kind.Iceberg? && Lots(r, lot) && 0 < r.display && qty <= r.display
    ensures Lots(Traded(r, qty), lot) && qty <= lot
  {
    LotStep(r.quantity - r.leaves, qty, lot);
  }

  lemma FilledLots(a: OrderState, qty: nat, lot: nat)
    requires a.kind.Iceberg? && Lots(a, lot) && qty <= a.leaves
    ensures Lots(FilledBy(a, qty), lot)
  {
    if qty < a.display { LotStep(a.quantity - a.leaves, qty, lot); }
  }

  // ----- one order -----

  /** If this is the order meant, it is as agreed. */
  predicate Honours(w: Terms, o: OrderState) {
    o.id == w.id ==>
      && o.side == w.side && o.kind == w.kind && o.price == w.price
      && o.quantity == w.quantity && o.leaves <= o.quantity
      && (w.kind.Iceberg? ==> Lots(o, w.display))
  }

  lemma TradedHonours(w: Terms, r: OrderState, qty: nat)
    requires Sound(r) && 0 < r.VisibleQty() && qty <= r.VisibleQty() && Honours(w, r)
    ensures Honours(w, Traded(r, qty)) && (r.id == w.id && w.kind.Iceberg? ==> qty <= w.display)
  {
    TradedKeeps(r, qty);
    TradedQuantity(r, qty);
    if r.id == w.id && w.kind.Iceberg? { TradedLots(r, qty, w.display); }
  }

  lemma TradedQuantity(r: OrderState, qty: nat)
    ensures Traded(r, qty).quantity == r.quantity
  {
  }

  lemma FilledHonours(w: Terms, a: OrderState, qty: nat)
    requires qty <= a.leaves && Honours(w, a)
    ensures Honours(w, FilledBy(a, qty))
  {
    if a.id == w.id && w.kind.Iceberg? { FilledLots(a, qty, w.display); }
  }

  // ----- queues, levels and fills -----

  predicate QueueHonours(w: Terms, queue: seq<OrderState>) {
    forall o | o in queue :: Honours(w, o)
  }

  /** The same for a level: a market order is on none, and whoever is has leaves. */
  predicate RestHonoured(w: Terms, queue: seq<OrderState>) {
    forall o | o in queue :: Honours(w, o) && (o.id == w.id ==> !w.Fleeting() && (w.Alive() ==> 0 < o.leaves))
  }

  predicate LevelsHonour(w: Terms, levels: seq<Level>) {
    forall l | l in levels :: RestHonoured(w, l.queue)
  }

  /** As a resting order it trades on its own side, at its own price and lot by lot. */
  predicate FillsHonour(w: Terms, side: Side, fills: seq<Fill>) {
    forall f | f in fills && f.id == w.id ::
      side == w.side && f.price == w.price && (w.kind.Iceberg? ==> f.qty <= w.display)
  }

  lemma AfterFrontHonours(w: Terms, queue: seq<OrderState>, qty: nat)
    requires queue != [] && Sound(queue[0]) && 0 < queue[0].VisibleQty() && qty <= queue[0].VisibleQty()
    requires RestHonoured(w, queue)
    ensures RestHonoured(w, AfterFront(queue, qty))
    ensures queue[0].id == w.id && w.kind.Iceberg? ==> qty <= w.display
  {
    hide Traded, Honours;
    assert queue[0] in queue && forall o | o in queue[1..] :: o in queue;
    TradedHonours(w, queue[0], qty);
    TradedKeeps(queue[0], qty);
  }

  lemma {:induction false} SweepQueueHonours(w: Terms, agg: OrderState, side: Side, price: int, queue: seq<OrderState>,
                                             active: map<nat, Ref>)
    requires QueueOk(side, price, queue, active) && RestHonoured(w, queue) && Honours(w, agg)
    ensures var s := SweepQueue(agg, price, queue);
            RestHonoured(w, s.queue) && FillsHonour(w, side, s.fills) && Honours(w, s.agg)
    decreases |queue|, if agg.IsActive() then agg.leaves + 1 else 0
  {
    hide Traded, FilledBy, AfterFront, Sound, RestHonoured;
    if agg.IsActive() && queue != [] {
      var r := queue[0];
      assert r in queue;
      FrontHonours(w, queue);
      if r.VisibleQty() == 0 {
        FrontSplit(queue);
        SweepQueueHonours(w, agg, side, price, queue[1..], active);
      } else {
        var qty := Min(agg.leaves, r.VisibleQty());
        SweepStep(agg, price, queue);
        SweepShrinks(agg, queue);
        AfterFrontOk(side, price, queue, active, qty);
        AfterFrontHonours(w, queue, qty);
        FilledHonours(w, agg, qty);
        SweepQueueHonours(w, FilledBy(agg, qty), side, price, AfterFront(queue, qty), active);
      }
    }
  }

  lemma FrontHonours(w: Terms, queue: seq<OrderState>)
    requires queue != [] && RestHonoured(w, queue)
    ensures Honours(w, queue[0]) && RestHonoured(w, queue[1..])
  {
  }

  lemma FillsHonourConcat(w: Terms, side: Side, a: seq<Fill>, b: seq<Fill>)
    requires FillsHonour(w, side, a) && FillsHonour(w, side, b)
    ensures FillsHonour(w, side, a + b)
  {
  }

  lemma LevelsHonourCons(w: Terms, l: Level, rest: seq<Level>)
    ensures LevelsHonour(w, [l] + rest) <==> RestHonoured(w, l.queue) && LevelsHonour(w, rest)
  {
    assert l in [l] + rest && forall k | k in rest :: k in [l] + rest;
  }

  lemma {:induction false} SweepLevelsHonours(w: Terms, agg: OrderState, side: Side, levels: seq<Level>,
                                              active: map<nat, Ref>)
    requires SideOk(side, levels, active) && LevelsHonour(w, levels) && Honours(w, agg)
    ensures var s := SweepLevels(agg, levels);
            LevelsHonour(w, s.levels) && FillsHonour(w, side, s.fills) && Honours(w, s.agg)
    decreases |levels|
  {
    hide SweepQueue, LevelOk, Sorted, LevelsHonour, FillsHonour, Honours, RestHonoured, QueueOk;
    if agg.IsActive() && levels != [] && Reaches(agg, levels[0].price) {
      var p, q, tail := levels[0].price, levels[0].queue, levels[1..];
      var s := SweepQueue(agg, p, q);
      SideTail(side, levels, active);
      LevelQueueOk(side, levels[0], active);
      assert levels == [levels[0]] + tail;
      LevelsHonourCons(w, levels[0], tail);
      SweepQueueHonours(w, agg, side, p, q, active);
      LevelsHonourCons(w, Level(p, s.queue), tail);
      if s.queue == [] {
        SweepLevelsHonours(w, s.agg, side, tail, active);
        FillsHonourConcat(w, side, s.fills, SweepLevels(s.agg, tail).fills);
      }
    } else {
      NoFills(w, side);
    }
  }

  lemma NoFills(w: Terms, side: Side)
    ensures FillsHonour(w, side, [])
  {
  }

  /** Every fill is at a price the aggressor accepts. */
  predicate Accepted(side: Side, kind: Kind, limit: int, price: int) {
    kind.Market? || (if side.Buy? then price <= limit else limit <= price)
  }

  lemma {:induction false} QueueFillsAt(agg: OrderState, price: int, queue: seq<OrderState>)
    ensures forall f | f in SweepQueue(agg, price, queue).fills :: f.price == price
    decreases |queue|, if agg.IsActive() then agg.leaves + 1 else 0
  {
    hide Traded, FilledBy, AfterFront;
    if agg.IsActive() && queue != [] {
      if queue[0].VisibleQty() == 0 {
        QueueFillsAt(agg, price, queue[1..]);
      } else {
        var qty := Min(agg.leaves, queue[0].VisibleQty());
        SweepStep(agg, price, queue);
        SweepShrinks(agg, queue);
        QueueFillsAt(FilledBy(agg, qty), price, AfterFront(queue, qty));
      }
    }
  }

  lemma {:induction false} SweepAccepted(agg: OrderState, levels: seq<Level>)
    requires Live(agg)
    ensures forall f | f in SweepLevels(agg, levels).fills :: Accepted(agg.side, agg.kind, agg.price, f.price)
    decreases |levels|
  {
    hide SweepQueue;
    if agg.IsActive() && levels != [] && Reaches(agg, levels[0].price) {
      var p, q := levels[0].price, levels[0].queue;
      QueueFillsAt(agg, p, q);
      SweepQueueAgg(agg, p, q);
      SweepAccepted(SweepQueue(agg, p, q).agg, levels[1..]);
    }
  }

  // ----- the book and its trades -----

  predicate BookHonours(w: Terms, b: Book, batch: seq<OrderState>) {
    && LevelsHonour(w, b.bids) && LevelsHonour(w, b.asks)
    && QueueHonours(w, b.pending) && QueueHonours(w, b.triggered) && QueueHonours(w, batch)
    && (w.Fleeting() ==> w.id !in b.active)
  }

  /** The order takes part on its own side only, and only at prices it accepts. */
  predicate TradesHonour(w: Terms, trades: seq<Trade>) {
    forall t | t in trades ::
      && (t.buyId == w.id ==> w.side.Buy? && Accepted(Buy, w.kind, w.price, t.price))
      && (t.sellId == w.id ==> w.side.Sell? && Accepted(Sell, w.kind, w.price, t.price))
  }

  /** The order takes part as a resting one: at its own price, and an iceberg in lots of at most its display. */
  predicate RestHonours(w: Terms, trades: seq<Trade>) {
    forall t | t in trades && (t.buyId == w.id || t.sellId == w.id) ::
      t.price == w.price && (w.kind.Iceberg? ==> t.qty <= w.display)
  }

  lemma {:induction false} HonourConcat(w: Terms, a: seq<Trade>, b: seq<Trade>)
    ensures TradesHonour(w, a) && TradesHonour(w, b) ==> TradesHonour(w, a + b)
    ensures RestHonours(w, a) && RestHonours(w, b) ==> RestHonours(w, a + b)
  {
  }

  /** What `agg` and its fills turn into. */
  lemma {:induction false} TradesOfHonour(w: Terms, tradeId: nat, agg: OrderState, fills: seq<Fill>)
    requires Honours(w, agg) && FillsHonour(w, agg.side.Opposite(), fills)
    requires forall f | f in fills :: f.id != agg.id && Accepted(agg.side, agg.kind, agg.price, f.price)
    ensures TradesHonour(w, TradesOf(tradeId, agg, fills))
    ensures agg.id != w.id ==> RestHonours(w, TradesOf(tradeId, agg, fills))
    decreases |fills|
  {
    hide Lots;
    if fills != [] {
      assert fills[0] in fills && forall f | f in fills[1..] :: f in fills;
      TradesOfHonour(w, tradeId + 1, agg, fills[1..]);
    }
  }

  lemma {:induction false} StopsHonour(w: Terms, stops: seq<OrderState>, last: int)
    requires QueueHonours(w, stops)
    ensures QueueHonours(w, Holding(stops, last)) && QueueHonours(w, Firing(stops, last))
  {
    hide Honours;
    if stops != [] {
      assert stops[0] in stops && forall o | o in stops[1..] :: o in stops;
      StopsHonour(w, stops[1..], last);
      TriggeredHonours(w, stops[0]);
    }
  }

  lemma TriggeredHonours(w: Terms, o: OrderState)
    ensures Honours(w, TriggeredOrder(o)) <==> Honours(w, o)
  {
  }

  lemma QueueHonoursConcat(w: Terms, a: seq<OrderState>, b: seq<OrderState>)
    requires QueueHonours(w, a) && QueueHonours(w, b)
    ensures QueueHonours(w, a + b)
  {
  }

  lemma {:induction false} RecordAllHonours(w: Terms, b: Book, batch: seq<OrderState>, agg: OrderState,
                                            fills: seq<Fill>)
    requires BookHonours(w, b, batch)
    ensures BookHonours(w, RecordAll(b, agg, fills), batch)
    decreases |fills|
  {
    hide QueueHonours, LevelsHonour, Holding, Firing;
    if fills != [] {
      StopsHonour(w, b.pending, fills[0].price);
      QueueHonoursConcat(w, b.triggered, Firing(b.pending, fills[0].price));
      RecordAllHonours(w, Record(b, agg, fills[0]), batch, agg, fills[1..]);
    }
  }

  lemma RestHonouredConcat(w: Terms, a: seq<OrderState>, b: seq<OrderState>)
    requires RestHonoured(w, a) && RestHonoured(w, b)
    ensures RestHonoured(w, a + b)
  {
  }

  lemma {:induction false} AddOrderHonours(w: Terms, side: Side, levels: seq<Level>, o: OrderState)
    requires LevelsHonour(w, levels) && RestHonoured(w, [o])
    ensures LevelsHonour(w, AddOrder(side, levels, o))
    decreases |levels|
  {
    hide RestHonoured, LevelsHonour;
    if levels == [] || Better(side, o.price, levels[0].price) {
      LevelsHonourCons(w, Level(o.price, [o]), levels);
    } else {
      var l, rest := levels[0], levels[1..];
      assert levels == [l] + rest;
      LevelsHonourCons(w, l, rest);
      if l.price == o.price {
        RestHonouredConcat(w, l.queue, [o]);
        LevelsHonourCons(w, Level(o.price, l.queue + [o]), rest);
      } else {
        AddOrderHonours(w, side, rest, o);
        LevelsHonourCons(w, l, AddOrder(side, rest, o));
      }
    }
  }

  // ----- one aggressor -----

  /** Who waits to be matched, now or after a trigger. */
  function StopIds(b: Book, batch: seq<OrderState>): set<nat> {
    IdsOf(b.pending) + IdsOf(b.triggered) + IdsOf(batch)
  }

  /** From `b` to `r` the order is kept to its terms; if it only rests, it trades as a resting order. */
  predicate Kept(w: Terms, b: Book, r: Book, rests: bool) {
    && b.trades <= r.trades
    && TradesHonour(w, r.trades[|b.trades|..])
    && (rests ==> RestHonours(w, r.trades[|b.trades|..]))
  }

  lemma KeptTrans(w: Terms, a: Book, b: Book, c: Book, rests: bool)
    requires Kept(w, a, b, rests) && Kept(w, b, c, rests)
    ensures Kept(w, a, c, rests)
  {
    hide TradesHonour, RestHonours;
    var t1, t2 := b.trades[|a.trades|..], c.trades[|b.trades|..];
    assert c.trades[|a.trades|..] == t1 + t2;
    HonourConcat(w, t1, t2);
  }

  lemma {:induction false} KeptRefl(w: Terms, b: Book, r: Book, rests: bool)
    requires r.trades == b.trades
    ensures Kept(w, b, r, rests)
  {
    assert r.trades[|b.trades|..] == [];
  }

  lemma {:induction false} SweptHonours(w: Terms, b: Book, batch: seq<OrderState>, o: OrderState)
    requires ConsistentWith(b, batch) && Fresh(o) && Unused(b, batch, o.id)
    requires BookHonours(w, b, batch) && Honours(w, o)
    ensures BookHonours(w, Swept(b, o), batch) && Honours(w, SweepLevels(o, b.On(o.side.Opposite())).agg)
    ensures Kept(w, b, Swept(b, o), o.id != w.id)
    ensures StopIds(Swept(b, o), batch) == StopIds(b, batch)
  {
    hide SweepLevels, RecordAll, LevelOk, Sorted, LevelIds, QueueHonours, LevelsHonour, Honours, FillsHonour,
         TradesHonour, RestHonours, Accepted;
    var opp := o.side.Opposite();
    var s := SweepLevels(o, b.On(opp));
    var b1 := b.With(opp, s.levels);
    SweepLevelsOk(o, opp, b.On(opp), b.active);
    SweepLevelsHonours(w, o, opp, b.On(opp), b.active);
    SweepAccepted(o, b.On(opp));
    SidesApart(b, batch);
    RecordAllOk(b1, batch, o, s.fills);
    RecordAllTrades(b1, o, s.fills);
    RecordAllHonours(w, b1, batch, o, s.fills);
    TradesOfHonour(w, b.nextTradeId, o, s.fills);
    assert Swept(b, o).trades[|b.trades|..] == TradesOf(b.nextTradeId, o, s.fills);
  }

  lemma {:induction false} MatchOneHonours(w: Terms, b: Book, batch: seq<OrderState>, o: OrderState)
    requires ConsistentWith(b, batch) && Fresh(o) && Unused(b, batch, o.id)
    requires BookHonours(w, b, batch) && Honours(w, o)
    ensures BookHonours(w, MatchOne(b, o), batch) && Kept(w, b, MatchOne(b, o), o.id != w.id)
    ensures StopIds(MatchOne(b, o), batch) == StopIds(b, batch)
  {
    hide SweepLevels, RecordAll, LevelsHonour, Honours, Kept, ConsistentWith, AddOrder;
    var s := SweepLevels(o, b.On(o.side.Opposite()));
    SweptHonours(w, b, batch, o);
    assert MatchOne(b, o) == Rest(Swept(b, o), s.agg);
    if !s.agg.IsFilled() && !s.agg.kind.Market? {
      RemainderHonours(w, s.agg);
      AddOrderHonours(w, s.agg.side, Swept(b, o).On(s.agg.side), s.agg);
    }
    KeptSame(w, b, Swept(b, o), MatchOne(b, o), o.id != w.id);
  }

  lemma RemainderHonours(w: Terms, a: OrderState)
    requires Honours(w, a) && !a.IsFilled() && !a.kind.Market?
    ensures RestHonoured(w, [a]) && (a.id == w.id ==> !w.Fleeting())
  {
  }

  lemma KeptSame(w: Terms, b: Book, r: Book, r': Book, rests: bool)
    requires Kept(w, b, r, rests) && r'.trades == r.trades
    ensures Kept(w, b, r', rests)
  {
  }

  // ----- the cascade -----

  lemma BatchHonours(w: Terms, b: Book, batch: seq<OrderState>)
    requires batch != [] && BookHonours(w, b, batch)
    ensures BookHonours(w, b, batch[1..]) && Honours(w, batch[0])
    ensures IdsOf(batch) == {batch[0].id} + IdsOf(batch[1..])
  {
    assert batch == [batch[0]] + batch[1..] && forall o | o in batch[1..] :: o in batch;
  }

  lemma {:induction false} RunBatchHonours(w: Terms, b: Book, batch: seq<OrderState>)
    requires ConsistentWith(b, batch) && BookHonours(w, b, batch)
    ensures BookHonours(w, RunBatch(b, batch), []) && Kept(w, b, RunBatch(b, batch), w.id !in StopIds(b, batch))
    ensures StopIds(RunBatch(b, batch), []) <= StopIds(b, batch)
    decreases |batch|
  {
    hide MatchOne, BookHonours, Kept, ConsistentWith, Honours;
    if batch == [] {
      KeptRefl(w, b, b, w.id !in StopIds(b, batch));
    } else {
      var o, rest := batch[0], batch[1..];
      var b1 := MatchOne(b, o);
      BatchTail(b, batch);
      BatchHonours(w, b, batch);
      MatchOneOk(b, rest, o);
      MatchOneHonours(w, b, rest, o);
      RunBatchHonours(w, b1, rest);
      KeptWeaker(w, b, b1, o.id != w.id, w.id !in StopIds(b, batch));
      KeptWeaker(w, b1, RunBatch(b1, rest), w.id !in StopIds(b1, rest), w.id !in StopIds(b, batch));
      KeptTrans(w, b, b1, RunBatch(b1, rest), w.id !in StopIds(b, batch));
    }
  }

  lemma KeptWeaker(w: Terms, b: Book, r: Book, rests: bool, rests': bool)
    requires Kept(w, b, r, rests) && (rests' ==> rests)
    ensures Kept(w, b, r, rests')
  {
  }

  lemma {:induction false} CascadeHonours(w: Terms, b: Book)
    requires ConsistentWith(b, []) && BookHonours(w, b, [])
    ensures BookHonours(w, Cascade(b), []) && Kept(w, b, Cascade(b), w.id !in StopIds(b, []))
    ensures StopIds(Cascade(b), []) <= StopIds(b, [])
    decreases |b.pending| + |b.triggered|
  {
    hide RunBatch, Kept, LevelsHonour, QueueHonours, IdsOf;
    var rests := w.id !in StopIds(b, []);
    if b.triggered == [] {
      KeptRefl(w, b, b, rests);
    } else {
      var b0 := b.(triggered := []);
      var b1 := RunBatch(b0, b.triggered);
      NobodyHonours(w);
      RunBatchOk(b0, b.triggered);
      RunBatchHonours(w, b0, b.triggered);
      CascadeHonours(w, b1);
      KeptRefl(w, b, b0, rests);
      KeptTrans(w, b, b0, b1, rests);
      KeptWeaker(w, b1, Cascade(b1), w.id !in StopIds(b1, []), rests);
      KeptTrans(w, b, b1, Cascade(b1), rests);
    }
  }

  lemma NobodyHonours(w: Terms)
    ensures QueueHonours(w, []) && IdsOf([]) == {}
  {
  }

  lemma FreshHonours(w: Terms, o: OrderState)
    requires Fresh(o) && Honours(w, o)
    ensures QueueHonours(w, [o])
  {
  }

  /** match keeps every order to its terms; only a submitted order and the stops trade as aggressors. */
  lemma {:induction false} MatchHonours(w: Terms, b: Book, o: OrderState)
    requires Consistent(b) && Fresh(o) && Unused(b, [], o.id) && BookHonours(w, b, []) && Honours(w, o)
    ensures BookHonours(w, Match(b, o), []) && Kept(w, b, Match(b, o), o.id != w.id && w.id !in StopIds(b, []))
    ensures StopIds(Match(b, o), []) <= StopIds(b, []) + (if o.kind.StopLoss? && !o.triggered then {o.id} else {})
  {
    hide MatchOne, Cascade, LevelsHonour, Kept, ConsistentWith, Honours;
    var rests := o.id != w.id && w.id !in StopIds(b, []);
    if o.kind.StopLoss? && !o.triggered {
      FreshHonours(w, o);
      QueueHonoursConcat(w, b.pending, [o]);
      IdsConcat(b.pending, [o]);
      assert IdsOf([o]) == {o.id};
      KeptRefl(w, b, Match(b, o), rests);
    } else {
      var b1 := MatchOne(b, o);
      MatchOneOk(b, [], o);
      MatchOneHonours(w, b, [], o);
      CascadeHonours(w, b1);
      KeptWeaker(w, b, b1, o.id != w.id, rests);
      KeptWeaker(w, b1, Cascade(b1), w.id !in StopIds(b1, []), rests);
      KeptTrans(w, b, b1, Cascade(b1), rests);
    }
  }

  // ----- a limit order or a stop loses nothing -----

  /** An order that shows all it has, and is no market order. */
  predicate Plain(w: Terms) {
    w.kind.Limit? || w.kind.StopLoss?
  }

  lemma {:induction false} DroppedNoLeaves(w: Terms, agg: OrderState, side: Side, price: int, queue: seq<OrderState>,
                                           active: map<nat, Ref>)
    requires QueueOk(side, price, queue, active) && RestHonoured(w, queue) && Plain(w)
    ensures LostBy(DroppedFrom(agg, price, queue), w.id) == 0
    decreases |queue|, if agg.IsActive() then agg.leaves + 1 else 0
  {
    hide Traded, FilledBy, AfterFront, Sound, RestHonoured;
    if agg.IsActive() && queue != [] {
      var r := queue[0];
      assert r in queue;
      FrontHonours(w, queue);
      FrontSplit(queue);
      if r.VisibleQty() == 0 {
        DroppedNoLeaves(w, agg, side, price, queue[1..], active);
        LostConcat([Lost(r.id, r.leaves)], DroppedFrom(agg, price, queue[1..]), w.id);
        LostSingle(Lost(r.id, r.leaves), w.id);
      } else {
        var qty := Min(agg.leaves, r.VisibleQty());
        SweepShrinks(agg, queue);
        AfterFrontOk(side, price, queue, active, qty);
        AfterFrontHonours(w, queue, qty);
        DroppedNoLeaves(w, FilledBy(agg, qty), side, price, AfterFront(queue, qty), active);
      }
    }
  }

  lemma {:induction false} DroppedSideNoLeaves(w: Terms, agg: OrderState, side: Side, levels: seq<Level>,
                                               active: map<nat, Ref>)
    requires SideOk(side, levels, active) && LevelsHonour(w, levels) && Plain(w)
    ensures LostBy(DroppedBy(agg, levels), w.id) == 0
    decreases |levels|
  {
    hide SweepQueue, DroppedFrom, LevelOk, Sorted, LevelsHonour, RestHonoured, QueueOk;
    if agg.IsActive() && levels != [] && Reaches(agg, levels[0].price) {
      var p, q, tail := levels[0].price, levels[0].queue, levels[1..];
      var s := SweepQueue(agg, p, q);
      SideTail(side, levels, active);
      LevelQueueOk(side, levels[0], active);
      assert levels == [levels[0]] + tail;
      LevelsHonourCons(w, levels[0], tail);
      DroppedNoLeaves(w, agg, side, p, q, active);
      DroppedSideNoLeaves(w, s.agg, side, tail, active);
      var rest := if s.queue == [] then DroppedBy(s.agg, tail) else [];
      LostConcat(DroppedFrom(agg, p, q), rest, w.id);
    }
  }

  lemma {:induction false} LostOneNone(w: Terms, b: Book, batch: seq<OrderState>, o: OrderState)
    requires ConsistentWith(b, batch) && BookHonours(w, b, batch) && Honours(w, o) && Plain(w)
    ensures LostBy(LostOne(b, o), w.id) == 0
  {
    hide SweepLevels, DroppedBy, LevelOk, Sorted, LevelsHonour;
    var opp := o.side.Opposite();
    var lost, own := DroppedBy(o, b.On(opp)), LostOne(b, o)[|DroppedBy(o, b.On(opp))|..];
    DroppedSideNoLeaves(w, o, opp, b.On(opp), b.active);
    assert LostOne(b, o) == lost + own;
    LostConcat(lost, own, w.id);
    LostSingle(Lost(o.id, SweepLevels(o, b.On(opp)).agg.leaves), w.id);
  }

  lemma {:induction false} LostBatchNone(w: Terms, b: Book, batch: seq<OrderState>)
    requires ConsistentWith(b, batch) && BookHonours(w, b, batch) && Plain(w)
    ensures LostBy(LostBatch(b, batch), w.id) == 0
    decreases |batch|
  {
    hide MatchOne, LostOne, ConsistentWith, BookHonours, Honours, Kept;
    if batch != [] {
      var o, rest := batch[0], batch[1..];
      BatchTail(b, batch);
      BatchHonours(w, b, batch);
      MatchOneOk(b, rest, o);
      MatchOneHonours(w, b, rest, o);
      LostOneNone(w, b, rest, o);
      LostBatchNone(w, MatchOne(b, o), rest);
      LostConcat(LostOne(b, o), LostBatch(MatchOne(b, o), rest), w.id);
    }
  }

  lemma {:induction false} LostCascadeNone(w: Terms, b: Book)
    requires ConsistentWith(b, []) && BookHonours(w, b, []) && Plain(w)
    ensures LostBy(LostCascade(b), w.id) == 0
    decreases |b.pending| + |b.triggered|
  {
    hide RunBatch, LostBatch, LevelsHonour, QueueHonours, Kept, LostBy;
    if b.triggered != [] {
      var b0 := b.(triggered := []);
      var b1 := RunBatch(b0, b.triggered);
      NobodyHonours(w);
      RunBatchOk(b0, b.triggered);
      RunBatchHonours(w, b0, b.triggered);
      LostBatchNone(w, b0, b.triggered);
      LostCascadeNone(w, b1);
      LostConcat(LostBatch(b0, b.triggered), LostCascade(b1), w.id);
    } else {
      LostNone([], w.id);
    }
  }

  /** Through a match and its cascade nothing of a limit order or a stop is lost. */
  lemma {:induction false} MatchLosesNothing(w: Terms, b: Book, o: OrderState)
    requires Consistent(b) && Fresh(o) && Unused(b, [], o.id) && BookHonours(w, b, []) && Honours(w, o) && Plain(w)
    ensures LostBy(LostIn(b, o), w.id) == 0
  {
    hide MatchOne, LostOne, LostCascade, BookHonours, Honours, Kept, ConsistentWith;
    if !(o.kind.StopLoss? && !o.triggered) {
      MatchOneOk(b, [], o);
      MatchOneHonours(w, b, [], o);
      LostOneNone(w, b, [], o);
      LostCascadeNone(w, MatchOne(b, o));
      LostConcat(LostOne(b, o), LostCascade(MatchOne(b, o)), w.id);
    }
  }
}
