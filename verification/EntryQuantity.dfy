/** How much an incoming order trades at once: the smaller of its quantity and all that shows at prices it accepts. */
module EntryQuantity {
  import opened Orders
  import opened BookSpec
  import opened BookInvariants
  import opened Ledger
  import opened OrderTerms

  /** The leaves, hidden parts included, of the orders that show something. */
  function Shown(queue: seq<OrderState>): nat {
    if queue == [] then 0
    else (if queue[0].VisibleQty() == 0 then 0 else queue[0].leaves) + Shown(queue[1..])
  }

  /** The same for all levels at prices that an order of this side, kind and limit accepts. */
  function ShownWithin(side: Side, kind: Kind, limit: int, levels: seq<Level>): nat {
    if levels == [] then 0
    else
      (if Accepted(side, kind, limit, levels[0].price) then Shown(levels[0].queue) else 0)
      + ShownWithin(side, kind, limit, levels[1..])
  }

  /** All that rests on a side. */
  function AllLeaves(levels: seq<Level>): nat {
    if levels == [] then 0 else AllIn(levels[0].queue) + AllLeaves(levels[1..])
  }

  function AllIn(queue: seq<OrderState>): nat {
    if queue == [] then 0 else queue[0].leaves + AllIn(queue[1..])
  }

  lemma {:induction false} CleanShowsAll(side: Side, limit: int, levels: seq<Level>)
    requires CleanLevels(levels)
    ensures ShownWithin(side, Market, limit, levels) == AllLeaves(levels)
  {
    if levels != [] {
      assert levels[0] in levels && forall l | l in levels[1..] :: l in levels;
      CleanQueueShowsAll(levels[0].queue);
      CleanShowsAll(side, limit, levels[1..]);
    }
  }

  lemma {:induction false} CleanQueueShowsAll(queue: seq<OrderState>)
    requires CleanQueue(queue)
    ensures Shown(queue) == AllIn(queue)
  {
    if queue != [] {
      assert queue[0] in queue && forall o | o in queue[1..] :: o in queue;
      CleanQueueShowsAll(queue[1..]);
    }
  }

  /** A trade with the front order takes just that from what shows: the next lot comes up from the hidden part. */
  lemma {:induction false} AfterFrontShown(queue: seq<OrderState>, qty: nat)
    requires queue != [] && Sound(queue[0]) && 0 < queue[0].VisibleQty() && qty <= queue[0].VisibleQty()
    ensures qty <= Shown(queue) && Shown(AfterFront(queue, qty)) == Shown(queue) - qty
  {
    TradedKeeps(queue[0], qty);
    var r1, next := Traded(queue[0], qty), AfterFront(queue, qty);
    if r1.IsFilled() {
      assert next == queue[1..];
    } else {
      assert next[1..] == queue[1..] && next[0] == r1;
    }
  }

  lemma {:induction false} SweepQueueTakes(agg: OrderState, price: int, queue: seq<OrderState>)
    requires Live(agg) && SoundQueue(queue)
    ensures TakenAll(SweepQueue(agg, price, queue).fills) == Min(agg.leaves, Shown(queue))
    decreases |queue|, if agg.IsActive() then agg.leaves + 1 else 0
  {
    hide Traded, FilledBy, AfterFront, Sound;
    if agg.IsActive() && queue != [] {
      var r, rest := queue[0], queue[1..];
      assert r in queue && forall o | o in rest :: o in queue;
      if r.VisibleQty() == 0 {
        SweepQueueTakes(agg, price, rest);
      } else {
        var qty := Min(agg.leaves, r.VisibleQty());
        SweepStep(agg, price, queue);
        SweepShrinks(agg, queue);
        FilledLive(agg, qty);
        AfterFrontSound(queue, qty);
        AfterFrontShown(queue, qty);
        SweepQueueTakes(FilledBy(agg, qty), price, AfterFront(queue, qty));
        TakenConcat([Fill(r.id, price, qty, Traded(r, qty).IsFilled())],
                    SweepQueue(FilledBy(agg, qty), price, AfterFront(queue, qty)).fills, 0);
      }
    }
  }

  /** Behind a price that is not accepted nothing is. */
  lemma {:induction false} NothingWithin(side: Side, kind: Kind, limit: int, levels: seq<Level>)
    requires Sorted(side.Opposite(), levels) && (levels == [] || !Accepted(side, kind, limit, levels[0].price))
    ensures ShownWithin(side, kind, limit, levels) == 0
    decreases |levels|
  {
    if levels != [] {
      var rest := levels[1..];
      assert forall i | 0 <= i < |rest| :: rest[i] == levels[i + 1];
      assert rest != [] ==> Better(side.Opposite(), levels[0].price, levels[1].price);
      NothingWithin(side, kind, limit, rest);
    }
  }

  lemma {:induction false} SweepLevelsTakes(agg: OrderState, levels: seq<Level>, active: map<nat, Ref>)
    requires SideOk(agg.side.Opposite(), levels, active) && Live(agg)
    ensures TakenAll(SweepLevels(agg, levels).fills)
         == Min(agg.leaves, ShownWithin(agg.side, agg.kind, agg.price, levels))
    decreases |levels|
  {
    hide SweepQueue, LevelOk, SoundQueue, Shown;
    if agg.IsActive() && levels != [] && Reaches(agg, levels[0].price) {
      var p, q, tail := levels[0].price, levels[0].queue, levels[1..];
      var s := SweepQueue(agg, p, q);
      SideTail(agg.side.Opposite(), levels, active);
      SideSound(agg.side.Opposite(), levels, active);
      assert levels[0] in levels;
      SweepQueueTakes(agg, p, q);
      SweepQueueLedger(agg, p, q, 0);
      SweepQueueAgg(agg, p, q);
      if s.queue == [] {
        SweepLevelsTakes(s.agg, tail, active);
        TakenConcat(s.fills, SweepLevels(s.agg, tail).fills, 0);
      }
    } else if agg.IsActive() {
      NothingWithin(agg.side, agg.kind, agg.price, levels);
    }
  }

  /** The history once the order's own sweep has ended, and before any stop is run. */
  function OwnEnd(b: Book, o: OrderState): nat {
    |MatchOne(b, o).trades|
  }

  /** The trades of an order's own sweep: its id on its side, its timestamp, accepted prices and all it can get. */
  lemma {:induction false} OwnSweep(b: Book, batch: seq<OrderState>, o: OrderState)
    requires ConsistentWith(b, batch) && Fresh(o) && Unused(b, batch, o.id)
    ensures b.trades <= MatchOne(b, o).trades
    ensures var own := MatchOne(b, o).trades[|b.trades|..];
      && TradedBy(own, o.id) == Min(o.leaves, ShownWithin(o.side, o.kind, o.price, b.On(o.side.Opposite())))
      && (forall t | t in own ::
            (if o.side.Buy? then t.buyId else t.sellId) == o.id && t.timestamp == o.timestamp
            && Accepted(o.side, o.kind, o.price, t.price))
  {
    hide SweepLevels, RecordAll, LevelOk, Sorted, LevelIds, TradedBy, Taken, TakenAll, Accepted, TradesOf, StopsOk;
    var opp := o.side.Opposite();
    var s := SweepLevels(o, b.On(opp));
    SweptSide(b, batch, o, o.id);
    SweepLevelsTakes(o, b.On(opp), b.active);
    SweepAccepted(o, b.On(opp));
    RecordAllTrades(b.With(opp, s.levels), o, s.fills);
    TradesOfLedger(b.nextTradeId, o, s.fills, o.id);
    OwnTrades(b.nextTradeId, o, s.fills);
    assert MatchOne(b, o).trades[|b.trades|..] == TradesOf(b.nextTradeId, o, s.fills);
  }

  lemma {:induction false} OwnTrades(tradeId: nat, o: OrderState, fills: seq<Fill>)
    requires forall f | f in fills :: Accepted(o.side, o.kind, o.price, f.price)
    ensures forall t | t in TradesOf(tradeId, o, fills) ::
              (if o.side.Buy? then t.buyId else t.sellId) == o.id && t.timestamp == o.timestamp
              && Accepted(o.side, o.kind, o.price, t.price)
    decreases |fills|
  {
    hide Accepted;
    if fills != [] {
      assert fills[0] in fills && forall f | f in fills[1..] :: f in fills;
      OwnTrades(tradeId + 1, o, fills[1..]);
    }
  }
}
