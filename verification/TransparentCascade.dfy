/**
  Iceberg transparency through the whole stop cascade: what a book does depends on (id, leaves) alone. Two clean
  books that agree on that end up agreeing, with the same trades once an iceberg's lots are counted together.
 */
module TransparentCascade {
  import opened Orders
  import opened BookSpec
  import opened BookInvariants
  import opened BaselineSpec
  import opened Transparency
  import opened StopCascade
  import opened Ledger

  // ----- trades up to numbering and lots -----

  function TradeSeen(t: Trade): SimpleTrade {
    SimpleTrade(t.buyId, t.sellId, t.price, t.qty)
  }

  function TradesSeen(trades: seq<Trade>): seq<SimpleTrade> {
    if trades == [] then [] else [TradeSeen(trades[0])] + TradesSeen(trades[1..])
  }

  predicate SamePair(a: SimpleTrade, b: SimpleTrade) {
    a.buyId == b.buyId && a.sellId == b.sellId && a.price == b.price
  }

  function Prepend(t: SimpleTrade, trades: seq<SimpleTrade>): seq<SimpleTrade> {
    if trades != [] && SamePair(t, trades[0]) then [t.(qty := t.qty + trades[0].qty)] + trades[1..]
    else [t] + trades
  }

  /** Neighbouring trades of the same pair at the same price put together. */
  function Coalesced(trades: seq<SimpleTrade>): seq<SimpleTrade> {
    if trades == [] then [] else Prepend(trades[0], Coalesced(trades[1..]))
  }

  lemma PrependTwice(a: SimpleTrade, b: SimpleTrade, trades: seq<SimpleTrade>)
    requires SamePair(a, b)
    ensures Prepend(a, Prepend(b, trades)) == Prepend(a.(qty := a.qty + b.qty), trades)
  {
  }

  lemma {:induction false} CoalescedCons(t: SimpleTrade, trades: seq<SimpleTrade>)
    ensures Coalesced([t] + trades) == Prepend(t, Coalesced(trades))
  {
    assert ([t] + trades)[1..] == trades;
  }

  lemma {:induction false} PrependConcat(x: SimpleTrade, c: seq<SimpleTrade>, b: seq<SimpleTrade>)
    ensures Coalesced(Prepend(x, c) + b) == Prepend(x, Coalesced(c + b))
  {
    if c != [] && SamePair(x, c[0]) {
      var y, rest := x.(qty := x.qty + c[0].qty), c[1..] + b;
      assert c + b == [c[0]] + rest;
      CoalescedCons(c[0], rest);
      PrependTwice(x, c[0], Coalesced(rest));
      assert Prepend(x, c) == [y] + c[1..];
      assert Prepend(x, c) + b == [y] + rest;
      CoalescedCons(y, rest);
    } else {
      assert Prepend(x, c) + b == [x] + (c + b);
      CoalescedCons(x, c + b);
    }
  }

  /** Coalescing may be done in parts. */
  lemma {:induction false} CoalescedLeft(a: seq<SimpleTrade>, b: seq<SimpleTrade>)
    ensures Coalesced(a + b) == Coalesced(Coalesced(a) + b)
  {
    if a == [] {
      assert Coalesced(a) + b == a + b;
    } else {
      CoalescedLeft(a[1..], b);
      assert a + b == [a[0]] + (a[1..] + b);
      CoalescedCons(a[0], a[1..] + b);
      PrependConcat(a[0], Coalesced(a[1..]), b);
    }
  }

  lemma {:induction false} CoalescedRight(a: seq<SimpleTrade>, b: seq<SimpleTrade>, b': seq<SimpleTrade>)
    requires Coalesced(b) == Coalesced(b')
    ensures Coalesced(a + b) == Coalesced(a + b')
  {
    if a == [] {
      assert a + b == b && a + b' == b';
    } else {
      CoalescedRight(a[1..], b, b');
      assert a + b == [a[0]] + (a[1..] + b);
      assert a + b' == [a[0]] + (a[1..] + b');
      CoalescedCons(a[0], a[1..] + b);
      CoalescedCons(a[0], a[1..] + b');
    }
  }

  lemma {:induction false} CoalescedCongruent(a: seq<SimpleTrade>, a': seq<SimpleTrade>, b: seq<SimpleTrade>,
                                              b': seq<SimpleTrade>)
    requires Coalesced(a) == Coalesced(a') && Coalesced(b) == Coalesced(b')
    ensures Coalesced(a + b) == Coalesced(a' + b')
  {
    CoalescedLeft(a, b);
    CoalescedLeft(a', b);
    CoalescedRight(a', b, b');
  }

  lemma {:induction false} TradesSeenConcat(a: seq<Trade>, b: seq<Trade>)
    ensures TradesSeen(a + b) == TradesSeen(a) + TradesSeen(b)
  {
    if a == [] {
      assert a + b == b;
    } else {
      assert (a + b)[1..] == a[1..] + b;
      TradesSeenConcat(a[1..], b);
    }
  }

  lemma {:induction false} TradesOfSeen(tradeId: nat, agg: OrderState, fills: seq<Fill>)
    ensures TradesSeen(TradesOf(tradeId, agg, fills)) == SimpleTrades(agg.side, agg.id, fills)
    decreases |fills|
  {
    if fills != [] {
      TradesOfSeen(tradeId + 1, agg, fills[1..]);
      assert TradesOf(tradeId, agg, fills)[1..] == TradesOf(tradeId + 1, agg, fills[1..]);
    }
  }

  lemma {:induction false} SimpleTradesCons(side: Side, id: nat, f: Fill, fills: seq<Fill>)
    ensures SimpleTrades(side, id, [f] + fills) == [SimpleTradeOf(side, id, f)] + SimpleTrades(side, id, fills)
  {
    assert ([f] + fills)[1..] == fills;
  }

  /** Gluing a fill in front is prepending its trade. */
  lemma {:induction false} GlueTrades(side: Side, id: nat, f: Fill, m: seq<Fill>)
    ensures Coalesced(SimpleTrades(side, id, Glue(f, m)))
        == Prepend(SimpleTradeOf(side, id, f), Coalesced(SimpleTrades(side, id, m)))
  {
    hide Coalesced, SimpleTrades;
    var t := SimpleTradeOf(side, id, f);
    if m != [] && !f.done && m[0].id == f.id && m[0].price == f.price {
      var g := m[0].(qty := f.qty + m[0].qty);
      var rest := SimpleTrades(side, id, m[1..]);
      assert m == [m[0]] + m[1..];
      SimpleTradesCons(side, id, m[0], m[1..]);
      SimpleTradesCons(side, id, g, m[1..]);
      CoalescedCons(SimpleTradeOf(side, id, m[0]), rest);
      CoalescedCons(SimpleTradeOf(side, id, g), rest);
      PrependTwice(t, SimpleTradeOf(side, id, m[0]), Coalesced(rest));
    } else {
      SimpleTradesCons(side, id, f, m);
      CoalescedCons(t, SimpleTrades(side, id, m));
    }
  }

  /** Merging the fills of a sweep changes nothing once its trades are coalesced. */
  lemma {:induction false} MergedTrades(side: Side, id: nat, fills: seq<Fill>)
    ensures Coalesced(SimpleTrades(side, id, fills)) == Coalesced(SimpleTrades(side, id, Merged(fills)))
    decreases |fills|
  {
    if fills != [] {
      hide Coalesced, SimpleTrades, Merged, Glue;
      var f, rest := fills[0], fills[1..];
      assert fills == [f] + rest;
      SimpleTradesCons(side, id, f, rest);
      CoalescedCons(SimpleTradeOf(side, id, f), SimpleTrades(side, id, rest));
      MergedTrades(side, id, rest);
      MergedCons(f, rest);
      GlueTrades(side, id, f, Merged(rest));
    }
  }

  // ----- recording merged fills: a second stop check at the same price finds nothing -----

  /** The two books know the same ids at the same places and hold the same stops. */
  predicate SameRest(b: Book, c: Book) {
    && b.pending == c.pending && b.triggered == c.triggered
    && b.active.Keys == c.active.Keys
    && forall id | id in b.active :: b.active[id].side == c.active[id].side && b.active[id].price == c.active[id].price
  }

  lemma {:induction false} CheckTwice(stops: seq<OrderState>, last: int)
    ensures Holding(Holding(stops, last), last) == Holding(stops, last)
    ensures Firing(Holding(stops, last), last) == []
  {
    if stops != [] {
      CheckTwice(stops[1..], last);
      var h := Holding(stops[1..], last);
      if Fires(stops[0], last) {
        assert [] + h == h;
      } else {
        assert ([stops[0]] + h)[1..] == h;
      }
    }
  }

  lemma RecordTwice(b: Book, agg: OrderState, f: Fill, g: Fill)
    requires !f.done && f.id == g.id && f.price == g.price
    ensures SameRest(Record(Record(b, agg, f), agg, g), Record(b, agg, g.(qty := f.qty + g.qty)))
  {
    CheckTwice(b.pending, f.price);
    var t := b.triggered + Firing(b.pending, f.price);
    assert t + [] == t;
  }

  lemma {:induction false} RecordAllSame(b: Book, c: Book, agg: OrderState, agg': OrderState, fills: seq<Fill>)
    requires SameRest(b, c)
    ensures SameRest(RecordAll(b, agg, fills), RecordAll(c, agg', fills))
    decreases |fills|
  {
    if fills != [] {
      RecordAllSame(Record(b, agg, fills[0]), Record(c, agg', fills[0]), agg, agg', fills[1..]);
    }
  }

  lemma {:induction false} RecordMerged(b: Book, agg: OrderState, fills: seq<Fill>)
    ensures SameRest(RecordAll(b, agg, fills), RecordAll(b, agg, Merged(fills)))
    decreases |fills|
  {
    if fills != [] {
      var f, m := fills[0], Merged(fills[1..]);
      RecordMerged(Record(b, agg, f), agg, fills[1..]);
      if m != [] && !f.done && m[0].id == f.id && m[0].price == f.price {
        var g := m[0].(qty := f.qty + m[0].qty);
        RecordTwice(b, agg, f, m[0]);
        RecordAllSame(Record(Record(b, agg, f), agg, m[0]), Record(b, agg, g), agg, agg, m[1..]);
        assert ([g] + m[1..])[1..] == m[1..];
      } else {
        assert ([f] + m)[1..] == m;
      }
    }
  }

  // ----- two books that agree -----

  predicate SameBook(b: Book, c: Book) {
    && SeenLevels(b.bids) == SeenLevels(c.bids)
    && SeenLevels(b.asks) == SeenLevels(c.asks)
    && SameRest(b, c)
  }

  /** Two orders alike up to hidden quantity and plain kind. */
  predicate Peers(o: OrderState, p: OrderState) {
    && Seen(o) == Seen(p) && o.side == p.side && o.timestamp == p.timestamp && o.kind.Market? == p.kind.Market?
    && o.kind.StopLoss? == p.kind.StopLoss?
  }

  /** The two books went on to `r` and `q` with the same trades. */
  predicate SameNews(b: Book, r: Book, c: Book, q: Book) {
    && b.trades <= r.trades && c.trades <= q.trades
    && Coalesced(TradesSeen(r.trades[|b.trades|..])) == Coalesced(TradesSeen(q.trades[|c.trades|..]))
  }

  lemma SameNewsTrans(b: Book, r: Book, r': Book, c: Book, q: Book, q': Book)
    requires SameNews(b, r, c, q) && SameNews(r, r', q, q')
    ensures SameNews(b, r', c, q')
  {
    var b1, b2 := r.trades[|b.trades|..], r'.trades[|r.trades|..];
    var c1, c2 := q.trades[|c.trades|..], q'.trades[|q.trades|..];
    assert r'.trades[|b.trades|..] == b1 + b2;
    assert q'.trades[|c.trades|..] == c1 + c2;
    TradesSeenConcat(b1, b2);
    TradesSeenConcat(c1, c2);
    CoalescedCongruent(TradesSeen(b1), TradesSeen(c1), TradesSeen(b2), TradesSeen(c2));
  }

  lemma {:induction false} AddOrderSeen(side: Side, levels: seq<Level>, o: OrderState)
    ensures SeenLevels(AddOrder(side, levels, o)) == Push(side, SeenLevels(levels), Seen(o))
    decreases |levels|
  {
    SeenLevelsCons(Level(o.price, [o]), levels);
    assert SeenQueue([o]) == [Seen(o)];
    if levels != [] && !Better(side, o.price, levels[0].price) {
      if levels[0].price == o.price {
        assert SeenQueue(levels[0].queue + [o]) == SeenQueue(levels[0].queue) + [Seen(o)];
        SeenLevelsCons(Level(o.price, levels[0].queue + [o]), levels[1..]);
      } else {
        AddOrderSeen(side, levels[1..], o);
        SeenLevelsCons(levels[0], AddOrder(side, levels[1..], o));
      }
    }
  }

  lemma SideQueues(side: Side, levels: seq<Level>, active: map<nat, Ref>)
    requires SideOk(side, levels, active)
    ensures forall l | l in levels :: l.queue != []
  {
    forall l | l in levels ensures l.queue != [] { assert LevelOk(side, l, active); }
  }

  lemma {:induction false} SweptSame(b: Book, c: Book, batch: seq<OrderState>, o: OrderState, p: OrderState)
    requires ConsistentWith(b, batch) && ConsistentWith(c, batch) && CleanBook(b) && CleanBook(c) && SameBook(b, c)
    requires Trading(o) && Trading(p) && Peers(o, p)
    ensures var s, t := SweepLevels(o, b.On(o.side.Opposite())), SweepLevels(p, c.On(o.side.Opposite()));
            && SeenLevels(s.levels) == SeenLevels(t.levels) && Merged(s.fills) == Merged(t.fills)
            && s.agg.leaves == t.agg.leaves && Trading(s.agg) && Trading(t.agg)
  {
    var opp := o.side.Opposite();
    SideQueues(opp, b.On(opp), b.active);
    SideQueues(opp, c.On(opp), c.active);
    SweepLevelsSeen(o, b.On(opp), false);
    SweepLevelsSeen(p, c.On(opp), false);
  }

  /** The trades of one aggressor, coalesced, are those of its merged fills. */
  lemma {:induction false} MatchOneTrades(b: Book, o: OrderState)
    ensures var s := SweepLevels(o, b.On(o.side.Opposite()));
            && b.trades <= MatchOne(b, o).trades
            && TradesSeen(MatchOne(b, o).trades[|b.trades|..]) == SimpleTrades(o.side, o.id, s.fills)
            && Coalesced(TradesSeen(MatchOne(b, o).trades[|b.trades|..]))
               == Coalesced(SimpleTrades(o.side, o.id, Merged(s.fills)))
  {
    hide SweepLevels, Coalesced, RecordAll, TradesOf, AddOrder, SimpleTrades, TradesSeen;
    var opp := o.side.Opposite();
    var s := SweepLevels(o, b.On(opp));
    RecordAllTrades(b.With(opp, s.levels), o, s.fills);
    TradesOfSeen(b.nextTradeId, o, s.fills);
    MergedTrades(o.side, o.id, s.fills);
    assert MatchOne(b, o).trades[|b.trades|..] == TradesOf(b.nextTradeId, o, s.fills);
  }

  lemma {:induction false} RecordedSame(b: Book, c: Book, o: OrderState, p: OrderState, f: seq<Fill>, g: seq<Fill>)
    requires SameBook(b, c) && Merged(f) == Merged(g)
    ensures SameBook(RecordAll(b, o, f), RecordAll(c, p, g))
  {
    RecordMerged(b, o, f);
    RecordMerged(c, p, g);
    RecordAllSame(b, c, o, p, Merged(f));
    RecordAllTrades(b, o, f);
    RecordAllTrades(c, p, g);
  }

  lemma RestSame(b: Book, c: Book, o: OrderState, p: OrderState)
    requires SameBook(b, c) && Peers(o, p)
    ensures SameBook(Rest(b, o), Rest(c, p))
  {
    AddOrderSeen(o.side, b.On(o.side), o);
    AddOrderSeen(o.side, c.On(o.side), p);
  }

  lemma MatchOneSame(b: Book, c: Book, batch: seq<OrderState>, o: OrderState, p: OrderState)
    requires ConsistentWith(b, batch) && ConsistentWith(c, batch) && CleanBook(b) && CleanBook(c) && SameBook(b, c)
    requires Fresh(o) && Fresh(p) && 0 < o.leaves && Peers(o, p)
    ensures SameBook(MatchOne(b, o), MatchOne(c, p))
    ensures SameNews(b, MatchOne(b, o), c, MatchOne(c, p))
  {
    var opp := o.side.Opposite();
    var s, t := SweepLevels(o, b.On(opp)), SweepLevels(p, c.On(opp));
    SweptSame(b, c, batch, o, p);
    SweepLevelsOk(o, opp, b.On(opp), b.active);
    SweepLevelsOk(p, opp, c.On(opp), c.active);
    RecordedSame(b.With(opp, s.levels), c.With(opp, t.levels), o, p, s.fills, t.fills);
    RestSame(Swept(b, o), Swept(c, p), s.agg, t.agg);
    MatchOneTrades(b, o);
    MatchOneTrades(c, p);
  }

  // ----- the cascade -----

  /** Stops with something to trade. */
  predicate Positive(stops: seq<OrderState>) {
    forall o | o in stops :: 0 < o.leaves
  }

  predicate PositiveStops(b: Book) {
    Positive(b.pending) && Positive(b.triggered)
  }

  lemma {:induction false} HoldingPositive(stops: seq<OrderState>, last: int)
    requires Positive(stops)
    ensures Positive(Holding(stops, last)) && Positive(Firing(stops, last))
  {
    if stops != [] {
      assert stops[0] in stops;
      HoldingPositive(stops[1..], last);
    }
  }

  lemma {:induction false} RecordAllPositive(b: Book, agg: OrderState, fills: seq<Fill>)
    requires PositiveStops(b)
    ensures PositiveStops(RecordAll(b, agg, fills))
    decreases |fills|
  {
    if fills != [] {
      HoldingPositive(b.pending, fills[0].price);
      RecordAllPositive(Record(b, agg, fills[0]), agg, fills[1..]);
    }
  }

  lemma MatchOnePositive(b: Book, o: OrderState)
    requires PositiveStops(b)
    ensures PositiveStops(MatchOne(b, o))
  {
    var opp := o.side.Opposite();
    var s := SweepLevels(o, b.On(opp));
    RecordAllPositive(b.With(opp, s.levels), o, s.fills);
  }

  /** A clean, consistent book whose stops have something to trade. */
  predicate Sane(b: Book, batch: seq<OrderState>) {
    ConsistentWith(b, batch) && CleanBook(b) && PositiveStops(b) && Positive(batch)
  }

  lemma SaneStep(b: Book, batch: seq<OrderState>)
    requires batch != [] && Sane(b, batch)
    ensures Fresh(batch[0]) && 0 < batch[0].leaves && batch[0].kind.StopLoss?
    ensures Sane(b, batch[1..]) && Sane(MatchOne(b, batch[0]), batch[1..])
  {
    BatchTail(b, batch);
    assert batch[0] in batch;
    SweepLevelsOk(batch[0], batch[0].side.Opposite(), b.On(batch[0].side.Opposite()), b.active);
    MatchOneOk(b, batch[1..], batch[0]);
    MatchOnePositive(b, batch[0]);
  }

  lemma {:induction false} RunBatchSame(b: Book, c: Book, batch: seq<OrderState>)
    requires Sane(b, batch) && Sane(c, batch) && SameBook(b, c)
    ensures Sane(RunBatch(b, batch), []) && Sane(RunBatch(c, batch), [])
    ensures SameBook(RunBatch(b, batch), RunBatch(c, batch))
    ensures SameNews(b, RunBatch(b, batch), c, RunBatch(c, batch))
    decreases |batch|
  {
    if batch != [] {
      var o := batch[0];
      SaneStep(b, batch);
      SaneStep(c, batch);
      MatchOneSame(b, c, batch[1..], o, o);
      RunBatchSame(MatchOne(b, o), MatchOne(c, o), batch[1..]);
      SameNewsTrans(b, MatchOne(b, o), RunBatch(b, batch), c, MatchOne(c, o), RunBatch(c, batch));
    }
  }

  lemma {:induction false} CascadeSame(b: Book, c: Book)
    requires Sane(b, []) && Sane(c, []) && SameBook(b, c)
    ensures Sane(Cascade(b), []) && Sane(Cascade(c), [])
    ensures SameBook(Cascade(b), Cascade(c))
    ensures SameNews(b, Cascade(b), c, Cascade(c))
    decreases |b.pending| + |b.triggered|
  {
    if b.triggered != [] {
      var b0, c0 := b.(triggered := []), c.(triggered := []);
      RunBatchSame(b0, c0, b.triggered);
      var b1, c1 := RunBatch(b0, b.triggered), RunBatch(c0, c.triggered);
      CascadeSame(b1, c1);
      SameNewsTrans(b0, b1, Cascade(b1), c0, c1, Cascade(c1));
    }
  }

  lemma StopNewsNone(b: Book, c: Book, o: OrderState)
    ensures SameNews(b, b.(pending := b.pending + [o]), c, c.(pending := c.pending + [o]))
  {
    assert b.trades[|b.trades|..] == [] && c.trades[|c.trades|..] == [];
  }

  /** The submitted order has the same, unused, id in both books. */
  lemma PeerUnused(b: Book, c: Book, o: OrderState, p: OrderState)
    requires SameBook(b, c) && Peers(o, p) && Unused(b, [], o.id)
    ensures Unused(c, [], p.id) && (p.kind.StopLoss? <==> o.kind.StopLoss?)
  {
  }

  lemma TradedSame(b: Book, c: Book, o: OrderState, p: OrderState)
    requires Sane(b, []) && Sane(c, []) && SameBook(b, c) && Peers(o, p)
    requires Fresh(o) && Fresh(p) && 0 < o.leaves && Unused(b, [], o.id) && Unused(c, [], p.id)
    requires RestsClean(b, o) && RestsClean(c, p)
    ensures var r, q := Cascade(MatchOne(b, o)), Cascade(MatchOne(c, p));
            Sane(r, []) && Sane(q, []) && SameBook(r, q) && SameNews(b, r, c, q)
  {
    hide MatchOne, ConsistentWith, CleanBook, SameBook, SameNews, Peers, Fresh, Unused, RestsClean, PositiveStops;
    var b1, c1 := MatchOne(b, o), MatchOne(c, p);
    MatchOneOk(b, [], o);
    MatchOneOk(c, [], p);
    MatchOnePositive(b, o);
    MatchOnePositive(c, p);
    MatchOneSame(b, c, [], o, p);
    CascadeSame(b1, c1);
    SameNewsTrans(b, b1, Cascade(b1), c, c1, Cascade(c1));
  }

  lemma HeldSane(b: Book, o: OrderState)
    requires Sane(b, []) && b.triggered == [] && Fresh(o) && 0 < o.leaves && Unused(b, [], o.id)
    requires o.kind.StopLoss? && !o.triggered && RestsClean(b, o)
    ensures Sane(b.(pending := b.pending + [o]), [])
  {
    hide SideOk, SweepLevels, RestsClean;
    MatchOk(b, o);
    assert forall s | s in b.pending + [o] :: s in b.pending || s == o;
  }

  /** match on two books that agree, given orders that agree. */
  lemma MatchSame(b: Book, c: Book, o: OrderState, p: OrderState)
    requires Sane(b, []) && Sane(c, []) && b.triggered == [] && SameBook(b, c)
    requires Fresh(o) && Fresh(p) && 0 < o.leaves && Peers(o, p)
    requires Unused(b, [], o.id) && RestsClean(b, o) && RestsClean(c, p) && (o.kind.StopLoss? ==> o == p)
    ensures Sane(Match(b, o), []) && Sane(Match(c, p), [])
    ensures SameBook(Match(b, o), Match(c, p))
    ensures SameNews(b, Match(b, o), c, Match(c, p))
  {
    hide MatchOne, Cascade, Sane, SameNews, Fresh, Unused, RestsClean, SeenLevels;
    PeerUnused(b, c, o, p);
    if o.kind.StopLoss? && !o.triggered {
      HeldSane(b, o);
      HeldSane(c, o);
      StopNewsNone(b, c, o);
    } else {
      TradedSame(b, c, o, p);
    }
  }

  // ----- replacing every iceberg by a plain order -----

  function PlainOf(o: OrderState): OrderState {
    if o.kind.Iceberg? then o.(kind := Limit, display := 0, hidden := 0, origDisplay := 0) else o
  }

  function PlainQueue(queue: seq<OrderState>): seq<OrderState> {
    seq(|queue|, i requires 0 <= i < |queue| => PlainOf(queue[i]))
  }

  function PlainSide(levels: seq<Level>): seq<Level> {
    seq(|levels|, i requires 0 <= i < |levels| => Level(levels[i].price, PlainQueue(levels[i].queue)))
  }

  function PlainActive(active: map<nat, Ref>): map<nat, Ref> {
    map id | id in active :: if active[id].kind.Iceberg? then active[id].(kind := Limit) else active[id]
  }

  function PlainBook(b: Book): Book {
    b.(bids := PlainSide(b.bids), asks := PlainSide(b.asks), active := PlainActive(b.active))
  }

  lemma PlainSideSeen(side: Side, levels: seq<Level>, active: map<nat, Ref>)
    requires SideOk(side, levels, active) && CleanLevels(levels)
    ensures SeenLevels(PlainSide(levels)) == SeenLevels(levels)
    ensures SideOk(side, PlainSide(levels), PlainActive(active)) && CleanLevels(PlainSide(levels))
    ensures PlainLevels(PlainSide(levels))
  {
    var p := PlainSide(levels);
    forall i | 0 <= i < |levels|
      ensures SeenLevels(p)[i] == SeenLevels(levels)[i]
      ensures LevelOk(side, p[i], PlainActive(active)) && CleanQueue(p[i].queue) && NoIcebergs(p[i].queue)
    {
      var q := levels[i].queue;
      assert levels[i] in levels && LevelOk(side, levels[i], active);
      assert SeenQueue(PlainQueue(q)) == SeenQueue(q);
      forall o | o in PlainQueue(q)
        ensures o.side == side && o.price == levels[i].price && Clean(o) && !o.kind.Iceberg?
        ensures o.id in active && PlainActive(active)[o.id] == Ref(side, o.kind, o.price)
      {
        var j :| 0 <= j < |q| && o == PlainOf(q[j]);
        assert q[j] in q;
      }
    }
  }

  /**
    Iceberg transparency: a clean book and the same book with plain orders in place of its icebergs go through
    the same match, cascade included, to books with the same orders, leaves, levels, ids and stops, and with the
    same trades once an iceberg's lots are counted together. The submitted order may be replaced as well.
   */
  lemma IcebergTransparency(b: Book, o: OrderState)
    requires Consistent(b) && CleanBook(b) && PositiveStops(b)
    requires Fresh(o) && 0 < o.leaves && Unused(b, [], o.id) && RestsClean(b, o)
    ensures SameBook(b, PlainBook(b))
    ensures SameBook(Match(b, o), Match(PlainBook(b), PlainOf(o)))
    ensures SameNews(b, Match(b, o), PlainBook(b), Match(PlainBook(b), PlainOf(o)))
  {
    hide SideOk, SweepLevels, Coalesced, SeenLevels, Match, SameNews;
    var c := PlainBook(b);
    PlainSideSeen(Buy, b.bids, b.active);
    PlainSideSeen(Sell, b.asks, b.active);
    assert c.active.Keys == b.active.Keys;
    SweepLevelsOk(PlainOf(o), o.side.Opposite(), c.On(o.side.Opposite()), c.active);
    MatchSame(b, c, o, PlainOf(o));
  }
}
