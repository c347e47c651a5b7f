/** The order book of include/orderbook.h and src/orderbook.cpp as functions on values. */
module BookSpec {
  import opened Orders

  /** One entry of a side's price map: a price and its FIFO queue. */
  datatype Level = Level(price: int, queue: seq<OrderState>)

  /** What `active_` is used for: the unchanging attributes of the order it points to. */
  datatype Ref = Ref(side: Side, kind: Kind, price: int)

  datatype Trade = Trade(tradeId: nat, buyId: nat, sellId: nat, price: int, qty: nat, timestamp: int)

  /** One trade seen from the aggressor: the resting order's id and whether the trade finished it. */
  datatype Fill = Fill(id: nat, price: int, qty: nat, done: bool)

  datatype Book = Book(
    bids: seq<Level>, asks: seq<Level>, active: map<nat, Ref>,
    pending: seq<OrderState>, triggered: seq<OrderState>,
    trades: seq<Trade>, nextTradeId: nat)
  {
    function On(side: Side): seq<Level> {
      if side.Buy? then bids else asks
    }

    function With(side: Side, levels: seq<Level>): Book {
      if side.Buy? then this.(bids := levels) else this.(asks := levels)
    }
  }

  const EmptyBook: Book := Book([], [], map[], [], [], [], 1)

  /** The order in which a side's map is walked: bids from the highest price, asks from the lowest. */
  predicate Better(side: Side, p: int, q: int) {
    if side.Buy? then p > q else p < q
  }

  /** Whether an aggressor may trade at the opposite price `p`. */
  predicate Reaches(agg: OrderState, p: int) {
    agg.kind.Market? || (if agg.side.Buy? then p <= agg.price else p >= agg.price)
  }

  // ----- addToBook, cancelLocked -----

  function AddOrder(side: Side, levels: seq<Level>, o: OrderState): seq<Level> {
    if levels == [] || Better(side, o.price, levels[0].price) then [Level(o.price, [o])] + levels
    else if levels[0].price == o.price then [Level(o.price, levels[0].queue + [o])] + levels[1..]
    else [levels[0]] + AddOrder(side, levels[1..], o)
  }

  function AddToBook(b: Book, o: OrderState): Book {
    b.With(o.side, AddOrder(o.side, b.On(o.side), o)).(active := b.active[o.id := Ref(o.side, o.kind, o.price)])
  }

  function Without(queue: seq<OrderState>, id: nat): seq<OrderState> {
    if queue == [] then []
    else (if queue[0].id == id then [] else [queue[0]]) + Without(queue[1..], id)
  }

  function RemoveOrder(levels: seq<Level>, price: int, id: nat): seq<Level> {
    if levels == [] then []
    else if levels[0].price == price then
      var q := Without(levels[0].queue, id);
      if q == [] then levels[1..] else [Level(price, q)] + levels[1..]
    else [levels[0]] + RemoveOrder(levels[1..], price, id)
  }

  /** cancelLocked: a missing id changes nothing (the source answers false). */
  function Cancel(b: Book, id: nat): Book {
    if id !in b.active then b
    else
      var r := b.active[id];
      b.With(r.side, RemoveOrder(b.On(r.side), r.price, id)).(active := b.active - {id})
  }

  /** modifyOrder: cancel and re-append under the plain constructor; no rematch. */
  function Modify(b: Book, id: nat, newPrice: int, newQty: nat, timestamp: int): Book {
    if id !in b.active then b
    else
      var r := b.active[id];
      AddToBook(Cancel(b, id), PlainOrder(id, timestamp, r.side, r.kind, newPrice, newQty))
  }

  // ----- checkStopTriggers -----

  predicate Fires(stop: OrderState, last: int) {
    if stop.side.Sell? then last <= stop.triggerPrice else last >= stop.triggerPrice
  }

  function Holding(stops: seq<OrderState>, last: int): seq<OrderState> {
    if stops == [] then []
    else (if Fires(stops[0], last) then [] else [stops[0]]) + Holding(stops[1..], last)
  }

  function Firing(stops: seq<OrderState>, last: int): seq<OrderState> {
    if stops == [] then []
    else (if Fires(stops[0], last) then [TriggeredOrder(stops[0])] else []) + Firing(stops[1..], last)
  }

  function CheckStops(b: Book, last: int): Book {
    b.(pending := Holding(b.pending, last), triggered := b.triggered + Firing(b.pending, last))
  }

  // ----- the matching loops -----

  datatype QueueSweep = QueueSweep(agg: OrderState, queue: seq<OrderState>, fills: seq<Fill>)

  datatype SideSweep = SideSweep(agg: OrderState, levels: seq<Level>, fills: seq<Fill>)

  /** The queue after one turn of the inner loop that trades `qty` with its front. */
  function AfterFront(queue: seq<OrderState>, qty: nat): seq<OrderState>
    requires queue != []
  {
    var r1 := Traded(queue[0], qty);
    (if r1.IsFilled() then [] else [r1]) + queue[1..]
  }

  /** The inner loop, over one price level. */
  function SweepQueue(agg: OrderState, price: int, queue: seq<OrderState>): (s: QueueSweep)
    ensures s.queue != [] ==> !s.agg.IsActive()
    ensures |s.queue| <= |queue|
    decreases |queue|, if agg.IsActive() then agg.leaves + 1 else 0
  {
    if !agg.IsActive() || queue == [] then QueueSweep(agg, queue, [])
    else
      var r := queue[0];
      if r.VisibleQty() == 0 then SweepQueue(agg, price, queue[1..])
      else
        var qty := Min(agg.leaves, r.VisibleQty());
        var t := SweepQueue(FilledBy(agg, qty), price, AfterFront(queue, qty));
        t.(fills := [Fill(r.id, price, qty, Traded(r, qty).IsFilled())] + t.fills)
  }

  /** The outer loop, over the levels from the best outwards. */
  function SweepLevels(agg: OrderState, levels: seq<Level>): SideSweep
    decreases |levels|
  {
    if !agg.IsActive() || levels == [] || !Reaches(agg, levels[0].price) then SideSweep(agg, levels, [])
    else
      var s := SweepQueue(agg, levels[0].price, levels[0].queue);
      if s.queue == [] then
        var t := SweepLevels(s.agg, levels[1..]);
        t.(fills := s.fills + t.fills)
      else SideSweep(s.agg, [Level(levels[0].price, s.queue)] + levels[1..], s.fills)
  }

  function TradeOf(tradeId: nat, agg: OrderState, f: Fill): Trade {
    if agg.side.Buy? then Trade(tradeId, agg.id, f.id, f.price, f.qty, agg.timestamp)
    else Trade(tradeId, f.id, agg.id, f.price, f.qty, agg.timestamp)
  }

  /** The trades of one aggressor's fills, numbered from `tradeId` on. */
  function TradesOf(tradeId: nat, agg: OrderState, fills: seq<Fill>): seq<Trade>
    decreases |fills|
  {
    if fills == [] then [] else [TradeOf(tradeId, agg, fills[0])] + TradesOf(tradeId + 1, agg, fills[1..])
  }

  /** What the loop body does besides the two fills: record the trade, check the stops, drop a finished id. */
  function Record(b: Book, agg: OrderState, f: Fill): Book {
    var b1 := b.(trades := b.trades + [TradeOf(b.nextTradeId, agg, f)], nextTradeId := b.nextTradeId + 1);
    var b2 := CheckStops(b1, f.price);
    if f.done then b2.(active := b2.active - {f.id}) else b2
  }

  function RecordAll(b: Book, agg: OrderState, fills: seq<Fill>): Book
    decreases |fills|
  {
    if fills == [] then b else RecordAll(Record(b, agg, fills[0]), agg, fills[1..])
  }

  /** What happens to the aggressor after the loops: a remainder rests unless it is a market order. */
  function Rest(b: Book, agg: OrderState): Book {
    if !agg.IsFilled() && !agg.kind.Market? then AddToBook(b, agg) else b
  }

  /** matchBuy and matchSell. */
  function MatchOne(b: Book, o: OrderState): (r: Book)
    ensures |r.pending| + |r.triggered| == |b.pending| + |b.triggered|
  {
    var opp := o.side.Opposite();
    var s := SweepLevels(o, b.On(opp));
    var r := RecordAll(b.With(opp, s.levels), o, s.fills);
    StopCountAll(b.With(opp, s.levels), o, s.fills);
    Rest(r, s.agg)
  }

  // ----- match: the stop cascade -----

  function RunBatch(b: Book, batch: seq<OrderState>): (r: Book)
    ensures |r.pending| + |r.triggered| == |b.pending| + |b.triggered|
    decreases |batch|
  {
    if batch == [] then b else RunBatch(MatchOne(b, batch[0]), batch[1..])
  }

  /** The loop of `match` over batches of triggered stops; it ends because each batch leaves fewer stops. */
  function Cascade(b: Book): (r: Book)
    ensures r.triggered == []
    decreases |b.pending| + |b.triggered|
  {
    if b.triggered == [] then b
    else Cascade(RunBatch(b.(triggered := []), b.triggered))
  }

  function Match(b: Book, o: OrderState): Book {
    if o.kind.StopLoss? && !o.triggered then b.(pending := b.pending + [o])
    else Cascade(MatchOne(b, o))
  }

  function BestPrice(levels: seq<Level>): int {
    if levels == [] then 0 else levels[0].price
  }

  function Spread(b: Book): int {
    if b.bids == [] || b.asks == [] then 0 else b.asks[0].price - b.bids[0].price
  }

  /** A turn shortens the queue or leaves less of the aggressor. */
  lemma SweepShrinks(agg: OrderState, queue: seq<OrderState>)
    requires agg.IsActive() && queue != [] && queue[0].VisibleQty() != 0
    ensures var qty := Min(agg.leaves, queue[0].VisibleQty());
            var a, rest := FilledBy(agg, qty), AfterFront(queue, qty);
            |rest| < |queue| || (|rest| == |queue| && (a.IsActive() ==> a.leaves < agg.leaves))
  {
  }

  /** What one trading turn of the inner loop leaves to do. */
  lemma {:induction false} SweepStep(agg: OrderState, price: int, queue: seq<OrderState>)
    requires agg.IsActive() && queue != [] && 0 < queue[0].VisibleQty()
    ensures var r := queue[0];
            var qty := Min(agg.leaves, r.VisibleQty());
            var t := SweepQueue(FilledBy(agg, qty), price, AfterFront(queue, qty));
            SweepQueue(agg, price, queue) == t.(fills := [Fill(r.id, price, qty, Traded(r, qty).IsFilled())] + t.fills)
  {
    hide AfterFront, Traded, FilledBy;
  }

  // ----- conservation of the number of stops, needed for termination -----

  lemma {:induction false} StopCount(stops: seq<OrderState>, last: int)
    ensures |Holding(stops, last)| + |Firing(stops, last)| == |stops|
  {
    if stops != [] { StopCount(stops[1..], last); }
  }

  lemma {:induction false} StopCountAll(b: Book, agg: OrderState, fills: seq<Fill>)
    ensures var r := RecordAll(b, agg, fills); |r.pending| + |r.triggered| == |b.pending| + |b.triggered|
    decreases fills
  {
    if fills != [] {
      StopCount(b.pending, fills[0].price);
      StopCountAll(Record(b, agg, fills[0]), agg, fills[1..]);
    }
  }
}
