/** The best bid stays below the best ask, through every match with its cascade and every cancel. */
module UncrossedBook {
  import opened Orders
  import opened BookSpec
  import opened BookInvariants

  /** Whether a limit order at `price` could trade at once: a test a caller can make beforehand. */
  predicate Crosses(b: Book, side: Side, price: int) {
    if side.Buy? then b.asks != [] && b.asks[0].price <= price
    else b.bids != [] && price <= b.bids[0].price
  }

  lemma MatchOneUncrossed(b: Book, batch: seq<OrderState>, o: OrderState)
    requires ConsistentWith(b, batch) && Fresh(o) && Unused(b, batch, o.id) && Uncrossed(b)
    ensures Uncrossed(MatchOne(b, o))
  {
    hide LevelOk, QueueOk, Clean, Sound, Sorted, StopsOk, SweepLevels, RecordAll;
    var opp := o.side.Opposite();
    var s := SweepLevels(o, b.On(opp));
    SweepLevelsOk(o, opp, b.On(opp), b.active);
    SweptOk(b, batch, o);
    RecordAllOk(b.With(opp, s.levels), batch, o, s.fills);
    if !s.agg.IsFilled() && !s.agg.kind.Market? {
      AddOrderOk(o.side, Swept(b, o).On(o.side), s.agg, Swept(b, o).active);
    }
  }

  lemma {:induction false} RunBatchUncrossed(b: Book, batch: seq<OrderState>)
    requires ConsistentWith(b, batch) && Uncrossed(b)
    ensures Uncrossed(RunBatch(b, batch))
    decreases |batch|
  {
    if batch != [] {
      BatchTail(b, batch);
      MatchOneOk(b, batch[1..], batch[0]);
      MatchOneUncrossed(b, batch[1..], batch[0]);
      RunBatchUncrossed(MatchOne(b, batch[0]), batch[1..]);
    }
  }

  lemma {:induction false} CascadeUncrossed(b: Book)
    requires ConsistentWith(b, []) && Uncrossed(b)
    ensures Uncrossed(Cascade(b))
    decreases |b.pending| + |b.triggered|
  {
    if b.triggered != [] {
      RunBatchOk(b.(triggered := []), b.triggered);
      RunBatchUncrossed(b.(triggered := []), b.triggered);
      CascadeUncrossed(RunBatch(b.(triggered := []), b.triggered));
    }
  }

  /** match: the remainders added in mid-cascade included. */
  lemma MatchUncrossed(b: Book, o: OrderState)
    requires Consistent(b) && Fresh(o) && Unused(b, [], o.id) && Uncrossed(b)
    ensures Uncrossed(Match(b, o))
  {
    if !(o.kind.StopLoss? && !o.triggered) {
      MatchOneOk(b, [], o);
      MatchOneUncrossed(b, [], o);
      CascadeUncrossed(MatchOne(b, o));
    }
  }

  lemma CancelUncrossed(b: Book, id: nat)
    requires Consistent(b) && Uncrossed(b)
    ensures Uncrossed(Cancel(b, id))
  {
    if id in b.active {
      RemoveOrderOk(b.active[id].side, b.On(b.active[id].side), id, b.active);
    }
  }

  /** modify does not rematch, so it keeps the book uncrossed exactly when the new price does not cross. */
  lemma ModifyUncrossedIff(b: Book, id: nat, newPrice: int, newQty: nat, timestamp: int)
    requires Consistent(b) && Uncrossed(b) && id in b.active
    ensures Uncrossed(Modify(b, id, newPrice, newQty, timestamp)) <==> !Crosses(b, b.active[id].side, newPrice)
  {
    var r := b.active[id];
    var c := Cancel(b, id);
    var o := PlainOrder(id, timestamp, r.side, r.kind, newPrice, newQty);
    CancelOk(b, id);
    CancelUncrossed(b, id);
    AddOrderOk(r.side, c.On(r.side), o, c.active);
  }

  /** The spread of a two-sided uncrossed book is positive; a one-sided book answers 0, and so does nobody else. */
  lemma SpreadPositive(b: Book)
    requires Uncrossed(b)
    ensures Spread(b) > 0 <==> b.bids != [] && b.asks != []
    ensures Spread(b) == 0 <==> b.bids == [] || b.asks == []
    ensures b.bids != [] && b.asks != [] ==> Spread(b) == BestPrice(b.asks) - BestPrice(b.bids)
  {
  }

  /** An empty side answers 0; any other answers the price of an order that rests there. */
  lemma BestPriceRests(b: Book, side: Side)
    requires Consistent(b)
    ensures b.On(side) == [] ==> BestPrice(b.On(side)) == 0
    ensures b.On(side) != [] ==> exists l, o | l in b.On(side) && o in l.queue :: o.price == BestPrice(b.On(side))
  {
    if b.On(side) != [] {
      var l := b.On(side)[0];
      assert LevelOk(side, l, b.active) && l.queue[0] in l.queue;
    }
  }

  /** bestBid is at least, and bestAsk at most, the price of every resting order of its side. */
  lemma BestPriceBounds(b: Book, side: Side, l: Level, o: OrderState)
    requires Consistent(b) && l in b.On(side) && o in l.queue
    ensures if side.Buy? then o.price <= BestPrice(b.On(side)) else BestPrice(b.On(side)) <= o.price
  {
    var i :| 0 <= i < |b.On(side)| && b.On(side)[i] == l;
  }
}
