/** What every operation of the book keeps: sorted levels, index agreement, sound orders, an uncrossed book. */
module BookInvariants {
  import opened Orders
  import opened BookSpec

  // ----- the shape of one side -----

  predicate Sorted(side: Side, levels: seq<Level>) {
    forall i, j | 0 <= i < j < |levels| :: Better(side, levels[i].price, levels[j].price)
  }

  predicate DistinctIds(queue: seq<OrderState>) {
    forall i, j | 0 <= i < j < |queue| :: queue[i].id != queue[j].id
  }

  function IdsOf(queue: seq<OrderState>): set<nat> {
    set o | o in queue :: o.id
  }

  function DoneIds(fills: seq<Fill>): set<nat> {
    set f | f in fills && f.done :: f.id
  }

  /** Every order of the queue belongs at this side and price, and `active_` finds it there. */
  predicate QueueOk(side: Side, price: int, queue: seq<OrderState>, active: map<nat, Ref>) {
    && DistinctIds(queue)
    && forall o | o in queue ::
         o.side == side && o.price == price && Sound(o) && o.id in active && active[o.id] == Ref(side, o.kind, price)
  }

  predicate LevelOk(side: Side, l: Level, active: map<nat, Ref>) {
    l.queue != [] && QueueOk(side, l.price, l.queue, active)
  }

  predicate SideOk(side: Side, levels: seq<Level>, active: map<nat, Ref>) {
    && Sorted(side, levels)
    && forall l | l in levels :: LevelOk(side, l, active)
  }

  predicate CleanQueue(queue: seq<OrderState>) {
    forall o | o in queue :: Clean(o)
  }

  predicate CleanLevels(levels: seq<Level>) {
    forall l | l in levels :: CleanQueue(l.queue)
  }

  function LevelIds(levels: seq<Level>): set<nat> {
    set l, o | l in levels && o in l.queue :: o.id
  }

  // ----- the whole book -----

  /** Stops that wait to fire, or have fired and wait for their turn: untouched and unknown to the levels. */
  predicate StopsOk(stops: seq<OrderState>, active: map<nat, Ref>) {
    && DistinctIds(stops)
    && forall o | o in stops :: Fresh(o) && o.kind.StopLoss? && o.id !in active
  }

  /** All stops of the book and of the batch being run have different ids. */
  predicate AllStopsOk(b: Book, batch: seq<OrderState>) {
    && StopsOk(b.pending, b.active) && StopsOk(b.triggered, b.active) && StopsOk(batch, b.active)
    && IdsOf(b.pending) !! IdsOf(b.triggered) !! IdsOf(batch)
  }

  predicate Uncrossed(b: Book) {
    b.bids == [] || b.asks == [] || b.bids[0].price < b.asks[0].price
  }

  /** The invariant in the middle of a cascade, with `batch` still to be run. */
  predicate ConsistentWith(b: Book, batch: seq<OrderState>) {
    && SideOk(Buy, b.bids, b.active)
    && SideOk(Sell, b.asks, b.active)
    && AllStopsOk(b, batch)
  }

  /** The invariant between operations. */
  predicate Consistent(b: Book) {
    ConsistentWith(b, []) && b.triggered == []
  }

  /** An id no order of the book or of the batch has. */
  predicate Unused(b: Book, batch: seq<OrderState>, id: nat) {
    id !in b.active && id !in IdsOf(b.pending) && id !in IdsOf(b.triggered) && id !in IdsOf(batch)
  }

  predicate CleanBook(b: Book) {
    CleanLevels(b.bids) && CleanLevels(b.asks)
  }

  /** In a clean book `active_` knows nothing that does not rest. */
  predicate NoStrays(b: Book) {
    b.active.Keys == LevelIds(b.bids) + LevelIds(b.asks)
  }

  /** An order that still has leaves can still trade. */
  predicate Live(agg: OrderState) {
    0 < agg.leaves ==> agg.IsActive()
  }

  // ----- one trade -----

  lemma TradedKeeps(r: OrderState, qty: nat)
    requires Sound(r) && 0 < r.VisibleQty() && qty <= r.VisibleQty()
    ensures r.VisibleQty() <= r.leaves
    ensures var t := Traded(r, qty);
            && Sound(t) && t.leaves == r.leaves - qty
            && t.id == r.id && t.side == r.side && t.price == r.price && t.kind == r.kind
            && (!t.IsFilled() ==> Clean(t))
            && (qty == r.VisibleQty() && !t.IsFilled() ==> t.display == Min(r.hidden, r.origDisplay))
  {
  }

  // ----- the inner loop -----

  lemma FrontSplit(queue: seq<OrderState>)
    requires queue != [] && DistinctIds(queue)
    ensures IdsOf(queue) == {queue[0].id} + IdsOf(queue[1..])
    ensures queue[0].id !in IdsOf(queue[1..])
    ensures DistinctIds(queue[1..])
  {
    assert queue == [queue[0]] + queue[1..];
  }

  lemma AfterFrontOk(side: Side, price: int, queue: seq<OrderState>, active: map<nat, Ref>, qty: nat)
    requires queue != [] && QueueOk(side, price, queue, active)
    requires 0 < queue[0].VisibleQty() && qty <= queue[0].VisibleQty()
    ensures var rest := AfterFront(queue, qty);
            && QueueOk(side, price, rest, active)
            && IdsOf(rest) == (if Traded(queue[0], qty).IsFilled() then {} else {queue[0].id}) + IdsOf(queue[1..])
            && (CleanQueue(queue) ==> CleanQueue(rest))
  {
    var r := queue[0];
    var r1 := Traded(r, qty);
    assert r in queue;
    TradedKeeps(r, qty);
    FrontSplit(queue);
    if !r1.IsFilled() {
      assert IdsOf([r1] + queue[1..]) == {r.id} + IdsOf(queue[1..]);
    } else {
      assert [] + queue[1..] == queue[1..];
    }
  }

  lemma DoneIdsCons(f: Fill, fills: seq<Fill>)
    ensures DoneIds([f] + fills) == (if f.done then {f.id} else {}) + DoneIds(fills)
  {
  }

  lemma {:induction false} SweepQueueOk(agg: OrderState, side: Side, price: int, queue: seq<OrderState>,
                                        active: map<nat, Ref>)
    requires QueueOk(side, price, queue, active)
    ensures var s := SweepQueue(agg, price, queue);
            && QueueOk(side, price, s.queue, active)
            && IdsOf(s.queue) <= IdsOf(queue)
            && (forall f | f in s.fills :: f.id in IdsOf(queue) && f.price == price)
            && IdsOf(s.queue) !! DoneIds(s.fills)
            && (CleanQueue(queue) ==> CleanQueue(s.queue) && IdsOf(queue) == IdsOf(s.queue) + DoneIds(s.fills))
    decreases |queue|, if agg.IsActive() then agg.leaves + 1 else 0
  {
    hide Sound, Traded, FilledBy;
    if agg.IsActive() && queue != [] {
      var r := queue[0];
      assert r in queue;
      FrontSplit(queue);
      if r.VisibleQty() == 0 {
        SweepQueueOk(agg, side, price, queue[1..], active);
      } else {
        var qty := Min(agg.leaves, r.VisibleQty());
        AfterFrontOk(side, price, queue, active, qty);
        SweepShrinks(agg, queue);
        SweepQueueOk(FilledBy(agg, qty), side, price, AfterFront(queue, qty), active);
        DoneIdsCons(Fill(r.id, price, qty, Traded(r, qty).IsFilled()),
                    SweepQueue(FilledBy(agg, qty), price, AfterFront(queue, qty)).fills);
      }
    }
  }

  lemma {:induction false} SweepQueueAgg(agg: OrderState, price: int, queue: seq<OrderState>)
    requires Live(agg)
    ensures var a := SweepQueue(agg, price, queue).agg;
            && Live(a) && a.id == agg.id && a.side == agg.side && a.kind == agg.kind && a.price == agg.price
            && a.quantity == agg.quantity && a.leaves <= agg.leaves && a.timestamp == agg.timestamp
            && (Sound(agg) ==> Sound(a))
    decreases |queue|, if agg.IsActive() then agg.leaves + 1 else 0
  {
    if agg.IsActive() && queue != [] {
      var r := queue[0];
      if r.VisibleQty() == 0 {
        SweepQueueAgg(agg, price, queue[1..]);
      } else {
        var qty := Min(agg.leaves, r.VisibleQty());
        SweepQueueAgg(FilledBy(agg, qty), price, AfterFront(queue, qty));
      }
    }
  }

  // ----- the outer loop -----

  lemma SideTail(side: Side, levels: seq<Level>, active: map<nat, Ref>)
    requires levels != [] && SideOk(side, levels, active)
    ensures SideOk(side, levels[1..], active) && LevelOk(side, levels[0], active)
    ensures LevelIds(levels) == IdsOf(levels[0].queue) + LevelIds(levels[1..])
    ensures CleanLevels(levels) ==> CleanQueue(levels[0].queue) && CleanLevels(levels[1..])
  {
    assert levels == [levels[0]] + levels[1..];
    assert forall i, j | 0 <= i < j < |levels[1..]| ::
        levels[1..][i] == levels[i + 1] && levels[1..][j] == levels[j + 1];
  }

  /** Putting a level back in front of worse ones. */
  lemma SideCons(side: Side, l: Level, rest: seq<Level>, active: map<nat, Ref>)
    requires LevelOk(side, l, active) && SideOk(side, rest, active)
    requires rest != [] ==> Better(side, l.price, rest[0].price)
    ensures SideOk(side, [l] + rest, active)
    ensures LevelIds([l] + rest) == IdsOf(l.queue) + LevelIds(rest)
    ensures CleanLevels([l] + rest) <==> CleanQueue(l.queue) && CleanLevels(rest)
  {
  }

  /** The fills of a sweep name orders that `active_` knew at the traded price and side. */
  predicate FillsKnown(side: Side, fills: seq<Fill>, active: map<nat, Ref>) {
    forall f | f in fills :: f.id in active && active[f.id].side == side && active[f.id].price == f.price
  }

  lemma DoneIdsConcat(a: seq<Fill>, b: seq<Fill>)
    ensures DoneIds(a + b) == DoneIds(a) + DoneIds(b)
  {
  }

  lemma SideShrink(side: Side, levels: seq<Level>, active: map<nat, Ref>, gone: set<nat>)
    requires SideOk(side, levels, active) && LevelIds(levels) !! gone
    ensures SideOk(side, levels, active - gone)
  {
    forall l | l in levels ensures LevelOk(side, l, active - gone) {
      forall o | o in l.queue ensures o.id !in gone {
        assert o.id in LevelIds(levels);
      }
    }
  }

  lemma {:induction false} SweepLevelsOk(agg: OrderState, side: Side, levels: seq<Level>, active: map<nat, Ref>)
    requires SideOk(side, levels, active) && Live(agg)
    ensures var s := SweepLevels(agg, levels);
            && SideOk(side, s.levels, active)
            && LevelIds(s.levels) <= LevelIds(levels)
            && FillsKnown(side, s.fills, active)
            && LevelIds(s.levels) !! DoneIds(s.fills)
            && (forall f | f in s.fills :: f.id in LevelIds(levels))
            && (CleanLevels(levels) ==>
                  CleanLevels(s.levels) && LevelIds(levels) == LevelIds(s.levels) + DoneIds(s.fills))
            && (s.levels != [] ==>
                  levels != [] &&
                  (s.levels[0].price == levels[0].price || Better(side, levels[0].price, s.levels[0].price)))
    ensures var s := SweepLevels(agg, levels);
            && Live(s.agg) && s.agg.id == agg.id && s.agg.side == agg.side
            && s.agg.kind == agg.kind && s.agg.price == agg.price
            && s.agg.quantity == agg.quantity && s.agg.leaves <= agg.leaves && s.agg.timestamp == agg.timestamp
            && (Sound(agg) ==> Sound(s.agg))
            && (0 < s.agg.leaves && s.levels != [] ==> !Reaches(s.agg, s.levels[0].price))
    decreases |levels|
  {
    if agg.IsActive() && levels != [] && Reaches(agg, levels[0].price) {
      var p, q := levels[0].price, levels[0].queue;
      var s := SweepQueue(agg, p, q);
      SideTail(side, levels, active);
      SweepQueueOk(agg, side, p, q, active);
      SweepQueueAgg(agg, p, q);
      LevelsApart(side, levels, active);
      if s.queue == [] {
        SweepLevelsOk(s.agg, side, levels[1..], active);
        DoneIdsConcat(s.fills, SweepLevels(s.agg, levels[1..]).fills);
      } else {
        SideCons(side, Level(p, s.queue), levels[1..], active);
      }
    }
  }

  /** No id rests on two levels, since `active_` gives one price for it. */
  lemma LevelsApart(side: Side, levels: seq<Level>, active: map<nat, Ref>)
    requires levels != [] && SideOk(side, levels, active)
    ensures IdsOf(levels[0].queue) !! LevelIds(levels[1..])
  {
    forall l, o, r | l in levels[1..] && o in l.queue && r in levels[0].queue ensures o.id != r.id {
      var i :| 0 <= i < |levels[1..]| && levels[1..][i] == l;
      assert levels[i + 1] == l && LevelOk(side, l, active) && LevelOk(side, levels[0], active);
    }
  }

  // ----- recording the fills -----

  lemma IdsConcat(a: seq<OrderState>, b: seq<OrderState>)
    ensures IdsOf(a + b) == IdsOf(a) + IdsOf(b)
    ensures DistinctIds(a) && DistinctIds(b) && IdsOf(a) !! IdsOf(b) ==> DistinctIds(a + b)
  {
    if DistinctIds(a) && DistinctIds(b) && IdsOf(a) !! IdsOf(b) {
      forall i, j | 0 <= i < j < |a + b| ensures (a + b)[i].id != (a + b)[j].id {
        if i < |a| <= j {
          assert a[i].id in IdsOf(a) && b[j - |a|].id in IdsOf(b);
        }
      }
    }
  }

  lemma {:induction false} HoldingFiring(stops: seq<OrderState>, last: int)
    requires DistinctIds(stops)
    ensures var h, f := Holding(stops, last), Firing(stops, last);
            && DistinctIds(h) && DistinctIds(f) && IdsOf(h) !! IdsOf(f) && IdsOf(h) + IdsOf(f) == IdsOf(stops)
            && (forall o | o in h :: o in stops)
            && (forall o | o in f :: exists s | s in stops :: o == TriggeredOrder(s))
  {
    if stops != [] {
      FrontSplit(stops);
      HoldingFiring(stops[1..], last);
      var h, f := Holding(stops[1..], last), Firing(stops[1..], last);
      var s := stops[0];
      if Fires(s, last) {
        IdsConcat([TriggeredOrder(s)], f);
        assert [] + h == h;
      } else {
        IdsConcat([s], h);
        assert [] + f == f;
      }
    }
  }

  lemma RecordOk(b: Book, batch: seq<OrderState>, agg: OrderState, f: Fill)
    requires AllStopsOk(b, batch) && Unused(b, batch, agg.id)
    ensures var r := Record(b, agg, f);
            && AllStopsOk(r, batch) && Unused(r, batch, agg.id)
            && r.bids == b.bids && r.asks == b.asks
            && r.active == b.active - (if f.done then {f.id} else {})
            && IdsOf(r.pending) + IdsOf(r.triggered) == IdsOf(b.pending) + IdsOf(b.triggered)
  {
    HoldingFiring(b.pending, f.price);
    IdsConcat(b.triggered, Firing(b.pending, f.price));
  }

  lemma {:induction false} RecordAllOk(b: Book, batch: seq<OrderState>, agg: OrderState, fills: seq<Fill>)
    requires AllStopsOk(b, batch) && Unused(b, batch, agg.id)
    ensures var r := RecordAll(b, agg, fills);
            && AllStopsOk(r, batch) && Unused(r, batch, agg.id)
            && r.bids == b.bids && r.asks == b.asks
            && r.active == b.active - DoneIds(fills)
            && IdsOf(r.pending) + IdsOf(r.triggered) == IdsOf(b.pending) + IdsOf(b.triggered)
    decreases |fills|
  {
    if fills != [] {
      RecordOk(b, batch, agg, fills[0]);
      RecordAllOk(Record(b, agg, fills[0]), batch, agg, fills[1..]);
      assert fills == [fills[0]] + fills[1..];
      DoneIdsCons(fills[0], fills[1..]);
    }
  }

  // ----- addToBook -----

  lemma JoinLevelOk(side: Side, l: Level, o: OrderState, active: map<nat, Ref>)
    requires LevelOk(side, l, active) && o.side == side && o.price == l.price && Sound(o) && o.id !in active
    ensures LevelOk(side, Level(l.price, l.queue + [o]), active[o.id := Ref(side, o.kind, o.price)])
    ensures IdsOf(l.queue + [o]) == IdsOf(l.queue) + {o.id}
    ensures CleanQueue(l.queue + [o]) <==> CleanQueue(l.queue) && Clean(o)
  {
    IdsConcat(l.queue, [o]);
  }

  /** `a` is a good side that holds the orders of `levels` and `o`. */
  predicate Added(side: Side, levels: seq<Level>, o: OrderState, active: map<nat, Ref>, a: seq<Level>) {
    && SideOk(side, a, active[o.id := Ref(side, o.kind, o.price)])
    && LevelIds(a) == LevelIds(levels) + {o.id}
    && (CleanLevels(levels) ==> (CleanLevels(a) <==> Clean(o)))
    && a != []
    && a[0].price == (if levels == [] || Better(side, o.price, levels[0].price) then o.price else levels[0].price)
  }

  lemma AddNewLevelOk(side: Side, levels: seq<Level>, o: OrderState, active: map<nat, Ref>)
    requires SideOk(side, levels, active) && o.side == side && Sound(o) && o.id !in active
    requires levels == [] || Better(side, o.price, levels[0].price)
    ensures Added(side, levels, o, active, [Level(o.price, [o])] + levels)
  {
    assert CleanQueue([o]) <==> Clean(o) by { assert o in [o]; }
    SideGrow(side, levels, active, o);
    assert IdsOf([o]) == {o.id};
    SideCons(side, Level(o.price, [o]), levels, active[o.id := Ref(side, o.kind, o.price)]);
  }

  lemma AddToFirstLevelOk(side: Side, levels: seq<Level>, o: OrderState, active: map<nat, Ref>)
    requires SideOk(side, levels, active) && o.side == side && Sound(o) && o.id !in active
    requires levels != [] && o.price == levels[0].price
    ensures Added(side, levels, o, active, [Level(o.price, levels[0].queue + [o])] + levels[1..])
  {
    hide CleanQueue, Sound, QueueOk, IdsOf;
    SideTail(side, levels, active);
    SideGrow(side, levels[1..], active, o);
    JoinLevelOk(side, levels[0], o, active);
    SideCons(side, Level(o.price, levels[0].queue + [o]), levels[1..], active[o.id := Ref(side, o.kind, o.price)]);
  }

  lemma {:induction false} AddOrderOk(side: Side, levels: seq<Level>, o: OrderState, active: map<nat, Ref>)
    requires SideOk(side, levels, active) && o.side == side && Sound(o) && o.id !in active
    ensures Added(side, levels, o, active, AddOrder(side, levels, o))
    decreases |levels|
  {
    hide CleanQueue, Sound, QueueOk, IdsOf, Clean, LevelIds, CleanLevels;
    if levels == [] || Better(side, o.price, levels[0].price) {
      AddNewLevelOk(side, levels, o, active);
    } else if levels[0].price == o.price {
      AddToFirstLevelOk(side, levels, o, active);
    } else {
      SideTail(side, levels, active);
      SideGrow(side, levels, active, o);
      AddOrderOk(side, levels[1..], o, active);
      SideCons(side, levels[0], AddOrder(side, levels[1..], o), active[o.id := Ref(side, o.kind, o.price)]);
    }
  }

  lemma SideGrow(side: Side, levels: seq<Level>, active: map<nat, Ref>, o: OrderState)
    requires SideOk(side, levels, active) && o.id !in active
    ensures SideOk(side, levels, active[o.id := Ref(o.side, o.kind, o.price)])
  {
    forall l | l in levels ensures LevelOk(side, l, active[o.id := Ref(o.side, o.kind, o.price)]) {
      assert LevelOk(side, l, active);
    }
  }

  // ----- the two sides together -----

  lemma SidesApart(b: Book, batch: seq<OrderState>)
    requires ConsistentWith(b, batch)
    ensures LevelIds(b.bids) !! LevelIds(b.asks)
    ensures forall side, id | id in b.active && b.active[id].side != side :: id !in LevelIds(b.On(side))
    ensures forall side, id | id in LevelIds(b.On(side)) :: id in b.active && b.active[id].side == side
  {
  }

  /** The aggressor's remainder, if it comes to rest, has visible quantity. */
  predicate RestsClean(b: Book, o: OrderState) {
    var a := SweepLevels(o, b.On(o.side.Opposite())).agg;
    a.IsFilled() || a.kind.Market? || Clean(a)
  }

  /** The book between the loops and the resting of the remainder. */
  function Swept(b: Book, o: OrderState): Book {
    var opp := o.side.Opposite();
    var s := SweepLevels(o, b.On(opp));
    RecordAll(b.With(opp, s.levels), o, s.fills)
  }

  lemma SweptOk(b: Book, batch: seq<OrderState>, o: OrderState)
    requires ConsistentWith(b, batch) && Fresh(o) && Unused(b, batch, o.id)
    ensures ConsistentWith(Swept(b, o), batch) && Unused(Swept(b, o), batch, o.id)
    ensures CleanBook(b) ==> CleanBook(Swept(b, o))
    ensures CleanBook(b) && NoStrays(b) ==> NoStrays(Swept(b, o))
  {
    hide SweepLevels, RecordAll, LevelOk, Sorted, StopsOk, CleanLevels, LevelIds;
    var opp := o.side.Opposite();
    var s := SweepLevels(o, b.On(opp));
    SweepLevelsOk(o, opp, b.On(opp), b.active);
    SidesApart(b, batch);
    RecordAllOk(b.With(opp, s.levels), batch, o, s.fills);
    SideShrink(opp, s.levels, b.active, DoneIds(s.fills));
    forall f | f in s.fills ensures f.id !in LevelIds(b.On(o.side)) { assert b.active[f.id].side == opp; }
    SideShrink(o.side, b.On(o.side), b.active, DoneIds(s.fills));
  }

  lemma AddToBookOk(b: Book, batch: seq<OrderState>, o: OrderState)
    requires ConsistentWith(b, batch) && Sound(o) && Unused(b, batch, o.id)
    ensures ConsistentWith(AddToBook(b, o), batch)
    ensures CleanBook(b) ==> (CleanBook(AddToBook(b, o)) <==> Clean(o))
    ensures NoStrays(b) ==> NoStrays(AddToBook(b, o))
  {
    hide Clean, CleanQueue, Sorted, AddOrder, QueueOk;
    AddOrderOk(o.side, b.On(o.side), o, b.active);
    SideGrow(o.side.Opposite(), b.On(o.side.Opposite()), b.active, o);
  }

  lemma MatchOneOk(b: Book, batch: seq<OrderState>, o: OrderState)
    requires ConsistentWith(b, batch) && Fresh(o) && Unused(b, batch, o.id)
    ensures ConsistentWith(MatchOne(b, o), batch)
    ensures CleanBook(b) ==> (CleanBook(MatchOne(b, o)) <==> RestsClean(b, o))
    ensures CleanBook(b) && NoStrays(b) ==> NoStrays(MatchOne(b, o))
  {
    SweptOk(b, batch, o);
    var opp := o.side.Opposite();
    var s := SweepLevels(o, b.On(opp));
    SweepLevelsOk(o, opp, b.On(opp), b.active);
    if !s.agg.IsFilled() && !s.agg.kind.Market? {
      AddToBookOk(Swept(b, o), batch, s.agg);
    }
  }

  // ----- the cascade -----

  lemma BatchTail(b: Book, batch: seq<OrderState>)
    requires batch != [] && ConsistentWith(b, batch)
    ensures ConsistentWith(b, batch[1..]) && Fresh(batch[0]) && Unused(b, batch[1..], batch[0].id)
  {
    FrontSplit(batch);
    assert batch[0] in batch;
  }

  lemma {:induction false} RunBatchOk(b: Book, batch: seq<OrderState>)
    requires ConsistentWith(b, batch)
    ensures ConsistentWith(RunBatch(b, batch), [])
    ensures CleanBook(b) ==> CleanBook(RunBatch(b, batch))
    ensures CleanBook(b) && NoStrays(b) ==> NoStrays(RunBatch(b, batch))
    decreases |batch|
  {
    if batch != [] {
      BatchTail(b, batch);
      var o := batch[0];
      SweepLevelsOk(o, o.side.Opposite(), b.On(o.side.Opposite()), b.active);
      MatchOneOk(b, batch[1..], o);
      RunBatchOk(MatchOne(b, o), batch[1..]);
    }
  }

  lemma {:induction false} CascadeOk(b: Book)
    requires ConsistentWith(b, [])
    ensures Consistent(Cascade(b))
    ensures CleanBook(b) ==> CleanBook(Cascade(b))
    ensures CleanBook(b) && NoStrays(b) ==> NoStrays(Cascade(b))
    decreases |b.pending| + |b.triggered|
  {
    if b.triggered != [] {
      RunBatchOk(b.(triggered := []), b.triggered);
      CascadeOk(RunBatch(b.(triggered := []), b.triggered));
    }
  }

  /** match keeps the invariant; it keeps the book clean unless the submitted order rests with nothing visible. */
  lemma MatchOk(b: Book, o: OrderState)
    requires Consistent(b) && Fresh(o) && Unused(b, [], o.id)
    ensures Consistent(Match(b, o))
    ensures CleanBook(b) && RestsClean(b, o) ==> CleanBook(Match(b, o))
    ensures CleanBook(b) && RestsClean(b, o) && NoStrays(b) ==> NoStrays(Match(b, o))
  {
    if o.kind.StopLoss? && !o.triggered {
      IdsConcat(b.pending, [o]);
    } else {
      MatchOneOk(b, [], o);
      CascadeOk(MatchOne(b, o));
    }
  }

  // ----- cancel and modify -----

  lemma {:induction false} WithoutOk(side: Side, price: int, queue: seq<OrderState>, active: map<nat, Ref>, id: nat)
    requires QueueOk(side, price, queue, active)
    ensures var q := Without(queue, id);
            && QueueOk(side, price, q, active - {id})
            && IdsOf(q) == IdsOf(queue) - {id}
            && (forall o | o in q :: o in queue)
  {
    hide Sound;
    if queue != [] {
      FrontSplit(queue);
      assert queue[0] in queue;
      WithoutOk(side, price, queue[1..], active, id);
      var q := Without(queue[1..], id);
      if queue[0].id == id {
        assert [] + q == q;
      } else {
        IdsConcat([queue[0]], q);
      }
    }
  }

  /** `r` is `levels` without the order `id`. */
  predicate Removed(side: Side, levels: seq<Level>, id: nat, active: map<nat, Ref>, r: seq<Level>) {
    && SideOk(side, r, active - {id})
    && LevelIds(r) == LevelIds(levels) - {id}
    && (CleanLevels(levels) ==> CleanLevels(r))
    && (r != [] ==> levels != [] && (r[0].price == levels[0].price || Better(side, levels[0].price, r[0].price)))
  }

  lemma {:induction false} RemoveFromFirstOk(side: Side, levels: seq<Level>, id: nat, active: map<nat, Ref>)
    requires SideOk(side, levels, active) && levels != []
    requires id in active && active[id] == Ref(side, active[id].kind, levels[0].price)
    ensures Removed(side, levels, id, active, RemoveOrder(levels, levels[0].price, id))
  {
    hide Clean, Sound;
    var l := levels[0];
    SideTail(side, levels, active);
    LevelsApart(side, levels, active);
    WithoutOk(side, l.price, l.queue, active, id);
    var tail := levels[1..];
    SideShrink(side, tail, active, {id});
    if Without(l.queue, id) != [] {
      SideCons(side, Level(l.price, Without(l.queue, id)), tail, active - {id});
    }
  }

  lemma {:induction false} RemoveOrderOk(side: Side, levels: seq<Level>, id: nat, active: map<nat, Ref>)
    requires SideOk(side, levels, active) && id in active && active[id].side == side
    ensures Removed(side, levels, id, active, RemoveOrder(levels, active[id].price, id))
    decreases |levels|
  {
    hide CleanQueue, Sound, Clean, CleanLevels, Without;
    if levels != [] {
      if levels[0].price == active[id].price {
        RemoveFromFirstOk(side, levels, id, active);
      } else {
        SideTail(side, levels, active);
        RemoveOrderOk(side, levels[1..], id, active);
        assert LevelOk(side, levels[0], active - {id});
        assert id !in IdsOf(levels[0].queue);
        SideCons(side, levels[0], RemoveOrder(levels[1..], active[id].price, id), active - {id});
      }
    }
  }

  lemma CancelOk(b: Book, id: nat)
    requires Consistent(b)
    ensures Consistent(Cancel(b, id))
    ensures CleanBook(b) ==> CleanBook(Cancel(b, id))
    ensures NoStrays(b) ==> NoStrays(Cancel(b, id))
    ensures Cancel(b, id).active == b.active - {id}
  {
    hide LevelOk, QueueOk, Clean, Sound, Sorted;
    if id in b.active {
      var side := b.active[id].side;
      SidesApart(b, []);
      RemoveOrderOk(side, b.On(side), id, b.active);
      SideShrink(side.Opposite(), b.On(side.Opposite()), b.active, {id});
    } else {
      assert b.active - {id} == b.active;
    }
  }

  /** The order a modify puts in place shows quantity only if it is not an iceberg and is not emptied. */
  lemma ModifyOk(b: Book, id: nat, newPrice: int, newQty: nat, timestamp: int)
    requires Consistent(b)
    ensures Consistent(Modify(b, id, newPrice, newQty, timestamp))
    ensures NoStrays(b) ==> NoStrays(Modify(b, id, newPrice, newQty, timestamp))
    ensures CleanBook(b) ==>
              (CleanBook(Modify(b, id, newPrice, newQty, timestamp)) <==>
               (id in b.active ==> !b.active[id].kind.Iceberg? && 0 < newQty))
  {
    if id in b.active {
      CancelOk(b, id);
      var r := b.active[id];
      AddToBookOk(Cancel(b, id), [], PlainOrder(id, timestamp, r.side, r.kind, newPrice, newQty));
    }
  }
}
