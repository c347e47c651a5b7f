/** The matching loops of src/orderbook.cpp one turn at a time: what is left to do after a turn gives the same end. */
module MatchSteps {
  import opened Orders
  import opened BookSpec

  datatype Outcome = Outcome(book: Book, agg: OrderState)

  function Settled(b: Book, agg: OrderState, side: Side, s: SideSweep): Outcome {
    Outcome(RecordAll(b.With(side, s.levels), agg, s.fills), s.agg)
  }

  /** The end of the outer loop over the levels of `side`, from this state on. */
  function OuterEnd(b: Book, agg: OrderState, side: Side): Outcome {
    Settled(b, agg, side, SweepLevels(agg, b.On(side)))
  }

  function AfterLevel(s: QueueSweep, price: int, rest: seq<Level>): SideSweep {
    if s.queue == [] then
      var t := SweepLevels(s.agg, rest);
      t.(fills := s.fills + t.fills)
    else SideSweep(s.agg, [Level(price, s.queue)] + rest, s.fills)
  }

  /** The end of the outer loop, seen from inside the inner one. */
  function InnerEnd(b: Book, agg: OrderState, side: Side): Outcome
    requires b.On(side) != []
  {
    var levels := b.On(side);
    Settled(b, agg, side, AfterLevel(SweepQueue(agg, levels[0].price, levels[0].queue), levels[0].price, levels[1..]))
  }

  function WithQueue(b: Book, side: Side, queue: seq<OrderState>): Book
    requires b.On(side) != []
  {
    b.With(side, [Level(b.On(side)[0].price, queue)] + b.On(side)[1..])
  }

  lemma {:induction false} RecordAllAlike(b: Book, a1: OrderState, a2: OrderState, fills: seq<Fill>)
    requires a1.id == a2.id && a1.side == a2.side && a1.timestamp == a2.timestamp
    ensures RecordAll(b, a1, fills) == RecordAll(b, a2, fills)
    decreases |fills|
  {
    if fills != [] { RecordAllAlike(Record(b, a1, fills[0]), a1, a2, fills[1..]); }
  }

  lemma OuterStop(b: Book, agg: OrderState, side: Side)
    requires !agg.IsActive() || b.On(side) == [] || !Reaches(agg, b.On(side)[0].price)
    ensures OuterEnd(b, agg, side) == Outcome(b, agg)
  {
  }

  lemma OuterEnter(b: Book, agg: OrderState, side: Side)
    requires agg.IsActive() && b.On(side) != [] && Reaches(agg, b.On(side)[0].price)
    ensures OuterEnd(b, agg, side) == InnerEnd(b, agg, side)
  {
  }

  lemma InnerLeave(b: Book, agg: OrderState, side: Side)
    requires b.On(side) != [] && (!agg.IsActive() || b.On(side)[0].queue == [])
    ensures InnerEnd(b, agg, side)
         == OuterEnd(if b.On(side)[0].queue == [] then b.With(side, b.On(side)[1..]) else b, agg, side)
  {
    var levels := b.On(side);
    var s := SweepQueue(agg, levels[0].price, levels[0].queue);
    assert s == QueueSweep(agg, levels[0].queue, []);
    assert levels == [Level(levels[0].price, levels[0].queue)] + levels[1..];
    if levels[0].queue == [] {
      var t := SweepLevels(agg, levels[1..]);
      assert [] + t.fills == t.fills;
    }
  }

  lemma InnerSkip(b: Book, agg: OrderState, side: Side)
    requires agg.IsActive() && b.On(side) != [] && b.On(side)[0].queue != []
    requires b.On(side)[0].queue[0].VisibleQty() == 0
    ensures InnerEnd(WithQueue(b, side, b.On(side)[0].queue[1..]), agg, side) == InnerEnd(b, agg, side)
  {
    assert WithQueue(b, side, b.On(side)[0].queue[1..]).On(side)[1..] == b.On(side)[1..];
  }

  /** The book after one turn that trades `qty` with the front order of `side`. */
  function Struck(b: Book, agg: OrderState, side: Side, qty: nat): Book
    requires b.On(side) != [] && b.On(side)[0].queue != []
  {
    var l := b.On(side)[0];
    Record(WithQueue(b, side, AfterFront(l.queue, qty)), agg,
           Fill(l.queue[0].id, l.price, qty, Traded(l.queue[0], qty).IsFilled()))
  }

  lemma InnerTrade(b: Book, agg: OrderState, side: Side)
    requires agg.IsActive() && b.On(side) != [] && b.On(side)[0].queue != []
    requires b.On(side)[0].queue[0].VisibleQty() != 0
    ensures var qty := Min(agg.leaves, b.On(side)[0].queue[0].VisibleQty());
      && Struck(b, agg, side, qty).On(side) != []
      && InnerEnd(Struck(b, agg, side, qty), FilledBy(agg, qty), side) == InnerEnd(b, agg, side)
  {
    hide RecordAll, SweepLevels, SweepQueue, AfterFront, Traded, FilledBy;
    var levels := b.On(side);
    var p, queue, rest := levels[0].price, levels[0].queue, levels[1..];
    var qty := Min(agg.leaves, queue[0].VisibleQty());
    var f := Fill(queue[0].id, p, qty, Traded(queue[0], qty).IsFilled());
    var b1, agg1 := Struck(b, agg, side, qty), FilledBy(agg, qty);
    assert b1.On(side)[1..] == rest && b1.On(side)[0] == Level(p, AfterFront(queue, qty));
    var t := SweepQueue(agg1, p, AfterFront(queue, qty));
    SweepStep(agg, p, queue);
    var e1 := AfterLevel(t, p, rest);
    AfterLevelCons(t, f, p, rest);
    RecordAllCons(b.With(side, e1.levels), agg, f, e1.fills);
    assert Record(b.With(side, e1.levels), agg, f) == b1.With(side, e1.levels);
    FilledKeepsLabels(agg, qty);
    RecordAllAlike(b1.With(side, e1.levels), agg, agg1, e1.fills);
  }

  lemma FilledKeepsLabels(agg: OrderState, qty: nat)
    ensures var a := FilledBy(agg, qty); a.id == agg.id && a.side == agg.side && a.timestamp == agg.timestamp
  {
  }

  lemma AfterLevelCons(t: QueueSweep, f: Fill, p: int, rest: seq<Level>)
    ensures var e := AfterLevel(t, p, rest);
      AfterLevel(t.(fills := [f] + t.fills), p, rest) == e.(fills := [f] + e.fills)
  {
    hide SweepLevels;
    var u := SweepLevels(t.agg, rest);
    assert ([f] + t.fills) + u.fills == [f] + (t.fills + u.fills);
  }

  lemma {:induction false} RecordAllCons(b: Book, agg: OrderState, f: Fill, fills: seq<Fill>)
    ensures RecordAll(b, agg, [f] + fills) == RecordAll(Record(b, agg, f), agg, fills)
  {
    assert ([f] + fills)[1..] == fills;
  }

  lemma MatchOneEnd(b: Book, o: OrderState)
    ensures var e := OuterEnd(b, o, o.side.Opposite()); MatchOne(b, o) == Rest(e.book, e.agg)
  {
  }
}
