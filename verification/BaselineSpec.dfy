/** The naive engine of benchmark/baseline_stl.cpp as functions on values. */
module BaselineSpec {
  import opened Orders
  import opened BookSpec

  datatype SimpleOrder = SimpleOrder(id: nat, price: int, qty: nat)

  datatype SimpleTrade = SimpleTrade(buyId: nat, sellId: nat, price: int, qty: nat)

  datatype SimpleLevel = SimpleLevel(price: int, queue: seq<SimpleOrder>)

  datatype Baseline = Baseline(bids: seq<SimpleLevel>, asks: seq<SimpleLevel>, nextId: nat) {
    function On(side: Side): seq<SimpleLevel> {
      if side.Buy? then bids else asks
    }

    function With(side: Side, levels: seq<SimpleLevel>): Baseline {
      if side.Buy? then this.(bids := levels) else this.(asks := levels)
    }
  }

  datatype SimpleSweep<T> = SimpleSweep(qty: nat, left: seq<T>, fills: seq<Fill>)

  /** The inner loop: take from the front until it or the incoming quantity runs out. */
  function DrainQueue(qty: nat, price: int, queue: seq<SimpleOrder>): SimpleSweep<SimpleOrder>
    decreases |queue|, qty
  {
    if qty == 0 || queue == [] then SimpleSweep(qty, queue, [])
    else
      var r := queue[0];
      var taken := Min(qty, r.qty);
      var f := Fill(r.id, price, taken, taken == r.qty);
      var t :=
        if taken == r.qty then DrainQueue(qty - taken, price, queue[1..])
        else DrainQueue(qty - taken, price, [r.(qty := r.qty - taken)] + queue[1..]);
      t.(fills := [f] + t.fills)
  }

  /** How far an aggressor may go. The naive engine always has a limit; NoBound serves market orders of the full one. */
  datatype Bound = NoBound | Bound(limit: int)

  predicate Within(side: Side, bound: Bound, p: int) {
    bound.NoBound? || (if side.Buy? then p <= bound.limit else p >= bound.limit)
  }

  /** The outer loop. */
  function DrainLevels(qty: nat, side: Side, bound: Bound, levels: seq<SimpleLevel>): SimpleSweep<SimpleLevel>
    decreases |levels|
  {
    if qty == 0 || levels == [] || !Within(side, bound, levels[0].price) then SimpleSweep(qty, levels, [])
    else
      var s := DrainQueue(qty, levels[0].price, levels[0].queue);
      if s.left == [] then
        var t := DrainLevels(s.qty, side, bound, levels[1..]);
        t.(fills := s.fills + t.fills)
      else SimpleSweep(s.qty, [SimpleLevel(levels[0].price, s.left)] + levels[1..], s.fills)
  }

  function Push(side: Side, levels: seq<SimpleLevel>, o: SimpleOrder): seq<SimpleLevel> {
    if levels == [] || Better(side, o.price, levels[0].price) then [SimpleLevel(o.price, [o])] + levels
    else if levels[0].price == o.price then [SimpleLevel(o.price, levels[0].queue + [o])] + levels[1..]
    else [levels[0]] + Push(side, levels[1..], o)
  }

  function SimpleTradeOf(side: Side, id: nat, f: Fill): SimpleTrade {
    if side.Buy? then SimpleTrade(id, f.id, f.price, f.qty) else SimpleTrade(f.id, id, f.price, f.qty)
  }

  function SimpleTrades(side: Side, id: nat, fills: seq<Fill>): seq<SimpleTrade> {
    if fills == [] then [] else [SimpleTradeOf(side, id, fills[0])] + SimpleTrades(side, id, fills[1..])
  }

  datatype BaselineResult = BaselineResult(lob: Baseline, trades: seq<SimpleTrade>)

  function BaselineMatch(lob: Baseline, side: Side, price: int, qty: nat): BaselineResult {
    var id, opp := lob.nextId, side.Opposite();
    var s := DrainLevels(qty, side, Bound(price), lob.On(opp));
    var l1 := lob.With(opp, s.left).(nextId := id + 1);
    var l2 := if s.qty > 0 then l1.With(side, Push(side, l1.On(side), SimpleOrder(id, price, s.qty))) else l1;
    BaselineResult(l2, SimpleTrades(side, id, s.fills))
  }
}
