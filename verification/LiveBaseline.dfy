/** The BaselineLOB class of benchmark/baseline_stl.cpp with its loops, proved against BaselineSpec. */
module LiveBaseline {
  import opened Orders
  import opened BookSpec
  import opened BaselineSpec

  /** The end of the outer loop: what is left of the quantity and of the side, and all trades. */
  datatype DrainEnd = DrainEnd(qty: nat, left: seq<SimpleLevel>, trades: seq<SimpleTrade>)

  function Ended(trades: seq<SimpleTrade>, side: Side, id: nat, s: SimpleSweep<SimpleLevel>): DrainEnd {
    DrainEnd(s.qty, s.left, trades + SimpleTrades(side, id, s.fills))
  }

  function OuterEnd(trades: seq<SimpleTrade>, side: Side, id: nat, price: int, qty: nat,
                    levels: seq<SimpleLevel>): DrainEnd {
    Ended(trades, side, id, DrainLevels(qty, side, Bound(price), levels))
  }

  function AfterQueue(s: SimpleSweep<SimpleOrder>, side: Side, price: int, p: int,
                      rest: seq<SimpleLevel>): SimpleSweep<SimpleLevel> {
    if s.left == [] then
      var t := DrainLevels(s.qty, side, Bound(price), rest);
      t.(fills := s.fills + t.fills)
    else SimpleSweep(s.qty, [SimpleLevel(p, s.left)] + rest, s.fills)
  }

  /** The same end, seen from inside the inner loop. */
  function InnerEnd(trades: seq<SimpleTrade>, side: Side, id: nat, price: int, qty: nat,
                    levels: seq<SimpleLevel>): DrainEnd
    requires levels != []
  {
    Ended(trades, side, id,
          AfterQueue(DrainQueue(qty, levels[0].price, levels[0].queue), side, price, levels[0].price, levels[1..]))
  }

  lemma InnerTurn(trades: seq<SimpleTrade>, side: Side, id: nat, price: int, qty: nat, levels: seq<SimpleLevel>)
    requires levels != [] && levels[0].queue != [] && qty > 0
    ensures var l := levels[0]; var r := l.queue[0]; var taken := Min(qty, r.qty);
      var queue := if taken == r.qty then l.queue[1..] else [r.(qty := r.qty - taken)] + l.queue[1..];
      InnerEnd(trades + [SimpleTradeOf(side, id, Fill(r.id, l.price, taken, taken == r.qty))],
               side, id, price, qty - taken, [SimpleLevel(l.price, queue)] + levels[1..])
      == InnerEnd(trades, side, id, price, qty, levels)
  {
    hide DrainLevels, DrainQueue, AfterQueue;
    var l, rest := levels[0], levels[1..];
    var r := l.queue[0];
    var taken := Min(qty, r.qty);
    var queue := if taken == r.qty then l.queue[1..] else [r.(qty := r.qty - taken)] + l.queue[1..];
    var f := Fill(r.id, l.price, taken, taken == r.qty);
    var t := DrainQueue(qty - taken, l.price, queue);
    QueueTurn(qty, l.price, l.queue);
    AfterQueueCons(t, f, side, price, l.price, rest);
    var e := AfterQueue(t, side, price, l.price, rest);
    assert ([f] + e.fills)[1..] == e.fills;
    assert trades + ([SimpleTradeOf(side, id, f)] + SimpleTrades(side, id, e.fills))
        == (trades + [SimpleTradeOf(side, id, f)]) + SimpleTrades(side, id, e.fills);
    assert ([SimpleLevel(l.price, queue)] + rest)[1..] == rest;
  }

  lemma QueueTurn(qty: nat, p: int, queue: seq<SimpleOrder>)
    requires queue != [] && qty > 0
    ensures var r := queue[0]; var taken := Min(qty, r.qty);
      var t := DrainQueue(qty - taken, p,
                          if taken == r.qty then queue[1..] else [r.(qty := r.qty - taken)] + queue[1..]);
      DrainQueue(qty, p, queue) == t.(fills := [Fill(r.id, p, taken, taken == r.qty)] + t.fills)
  {
  }

  lemma AfterQueueCons(t: SimpleSweep<SimpleOrder>, f: Fill, side: Side, price: int, p: int, rest: seq<SimpleLevel>)
    ensures var e := AfterQueue(t, side, price, p, rest);
      AfterQueue(t.(fills := [f] + t.fills), side, price, p, rest) == e.(fills := [f] + e.fills)
  {
    hide DrainLevels;
    var u := DrainLevels(t.qty, side, Bound(price), rest);
    assert ([f] + t.fills) + u.fills == [f] + (t.fills + u.fills);
  }

  lemma InnerLeave(trades: seq<SimpleTrade>, side: Side, id: nat, price: int, qty: nat, levels: seq<SimpleLevel>)
    requires levels != [] && (levels[0].queue == [] || qty == 0)
    ensures InnerEnd(trades, side, id, price, qty, levels)
         == OuterEnd(trades, side, id, price, qty, if levels[0].queue == [] then levels[1..] else levels)
  {
    var s := DrainQueue(qty, levels[0].price, levels[0].queue);
    assert s == SimpleSweep(qty, levels[0].queue, []);
    if levels[0].queue == [] {
      var t := DrainLevels(qty, side, Bound(price), levels[1..]);
      assert [] + t.fills == t.fills;
    } else {
      assert [SimpleLevel(levels[0].price, levels[0].queue)] + levels[1..] == levels;
    }
  }

  lemma OuterEnter(trades: seq<SimpleTrade>, side: Side, id: nat, price: int, qty: nat, levels: seq<SimpleLevel>)
    requires qty > 0 && levels != [] && Within(side, Bound(price), levels[0].price)
    ensures OuterEnd(trades, side, id, price, qty, levels) == InnerEnd(trades, side, id, price, qty, levels)
  {
  }

  lemma OuterStop(trades: seq<SimpleTrade>, side: Side, id: nat, price: int, qty: nat, levels: seq<SimpleLevel>)
    requires qty == 0 || levels == [] || !Within(side, Bound(price), levels[0].price)
    ensures OuterEnd(trades, side, id, price, qty, levels) == DrainEnd(qty, levels, trades)
  {
    assert trades + [] == trades;
  }

  class BaselineLOB {
    var bids: seq<SimpleLevel>
    var asks: seq<SimpleLevel>
    var nextId: nat

    function View(): Baseline
      reads this
    {
      Baseline(bids, asks, nextId)
    }

    constructor ()
      ensures View() == Baseline([], [], 1)
    {
      bids, asks, nextId := [], [], 1;
    }

    method TakeAsks(id: nat, price: int, wanted: nat) returns (qty: nat, trades: seq<SimpleTrade>)
      modifies this`asks
      ensures DrainEnd(qty, asks, trades) == OuterEnd([], Buy, id, price, wanted, old(asks))
    {
      hide OuterEnd, InnerEnd, SimpleTrades;
      qty, trades := wanted, [];
      ghost var goal := OuterEnd(trades, Buy, id, price, qty, asks);
      while qty > 0 && asks != []
        invariant OuterEnd(trades, Buy, id, price, qty, asks) == goal
        decreases |asks|, qty
      {
        if price < asks[0].price { break; }
        OuterEnter(trades, Buy, id, price, qty, asks);
        ghost var depth, before := |asks|, qty;
        while asks[0].queue != [] && qty > 0
          invariant |asks| == depth && qty <= before
          invariant InnerEnd(trades, Buy, id, price, qty, asks) == goal
          decreases |asks[0].queue|, qty
        {
          InnerTurn(trades, Buy, id, price, qty, asks);
          var resting := asks[0].queue[0];
          var taken := Min(qty, resting.qty);
          qty := qty - taken;
          resting := resting.(qty := resting.qty - taken);
          trades := trades + [SimpleTrade(id, resting.id, asks[0].price, taken)];
          var rest := asks[0].queue[1..];
          asks := [SimpleLevel(asks[0].price, if resting.qty == 0 then rest else [resting] + rest)] + asks[1..];
        }
        InnerLeave(trades, Buy, id, price, qty, asks);
        if asks[0].queue == [] { asks := asks[1..]; }
      }
      OuterStop(trades, Buy, id, price, qty, asks);
    }

    method TakeBids(id: nat, price: int, wanted: nat) returns (qty: nat, trades: seq<SimpleTrade>)
      modifies this`bids
      ensures DrainEnd(qty, bids, trades) == OuterEnd([], Sell, id, price, wanted, old(bids))
    {
      hide OuterEnd, InnerEnd, SimpleTrades;
      qty, trades := wanted, [];
      ghost var goal := OuterEnd(trades, Sell, id, price, qty, bids);
      while qty > 0 && bids != []
        invariant OuterEnd(trades, Sell, id, price, qty, bids) == goal
        decreases |bids|, qty
      {
        if price > bids[0].price { break; }
        OuterEnter(trades, Sell, id, price, qty, bids);
        ghost var depth, before := |bids|, qty;
        while bids[0].queue != [] && qty > 0
          invariant |bids| == depth && qty <= before
          invariant InnerEnd(trades, Sell, id, price, qty, bids) == goal
          decreases |bids[0].queue|, qty
        {
          InnerTurn(trades, Sell, id, price, qty, bids);
          var resting := bids[0].queue[0];
          var taken := Min(qty, resting.qty);
          qty := qty - taken;
          resting := resting.(qty := resting.qty - taken);
          trades := trades + [SimpleTrade(resting.id, id, bids[0].price, taken)];
          var rest := bids[0].queue[1..];
          bids := [SimpleLevel(bids[0].price, if resting.qty == 0 then rest else [resting] + rest)] + bids[1..];
        }
        InnerLeave(trades, Sell, id, price, qty, bids);
        if bids[0].queue == [] { bids := bids[1..]; }
      }
      OuterStop(trades, Sell, id, price, qty, bids);
    }

    method Match(isBuy: bool, price: int, wanted: nat) returns (trades: seq<SimpleTrade>)
      modifies this
      ensures BaselineResult(View(), trades) == BaselineMatch(old(View()), if isBuy then Buy else Sell, price, wanted)
    {
      hide DrainLevels, SimpleTrades, Push;
      var id, qty := nextId, wanted;
      nextId := nextId + 1;
      if isBuy {
        qty, trades := TakeAsks(id, price, qty);
        if qty > 0 { bids := Push(Buy, bids, SimpleOrder(id, price, qty)); }
      } else {
        qty, trades := TakeBids(id, price, qty);
        if qty > 0 { asks := Push(Sell, asks, SimpleOrder(id, price, qty)); }
      }
    }
  }
}
