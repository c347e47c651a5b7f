/** One aggressor or two in a row with the same total: the side they meet cannot tell. */
module Splitting {
  import opened Orders
  import opened BookSpec
  import opened BookInvariants
  import opened BaselineSpec
  import opened Transparency
  import opened Ledger

  /** What a sweep leaves behind depends on the aggressor's quantity alone. */
  datatype Eaten<T> = Eaten(qty: nat, left: seq<T>)

  function EatQueue(qty: nat, queue: seq<OrderState>): Eaten<OrderState>
    decreases |queue|, qty
  {
    if qty == 0 || queue == [] then Eaten(qty, queue)
    else if queue[0].VisibleQty() == 0 then EatQueue(qty, queue[1..])
    else
      var lot := Min(qty, queue[0].VisibleQty());
      EatQueue(qty - lot, AfterFront(queue, lot))
  }

  function EatLevels(qty: nat, side: Side, bound: Bound, levels: seq<Level>): Eaten<Level>
    decreases |levels|
  {
    if qty == 0 || levels == [] || !Within(side, bound, levels[0].price) then Eaten(qty, levels)
    else
      var e := EatQueue(qty, levels[0].queue);
      if e.left == [] then EatLevels(e.qty, side, bound, levels[1..])
      else Eaten(e.qty, [Level(levels[0].price, e.left)] + levels[1..])
  }

  lemma {:induction false} SweepQueueEats(agg: OrderState, price: int, queue: seq<OrderState>)
    requires Trading(agg)
    ensures var s, e := SweepQueue(agg, price, queue), EatQueue(agg.leaves, queue);
            s.queue == e.left && s.agg.leaves == e.qty
    decreases |queue|, if agg.IsActive() then agg.leaves + 1 else 0
  {
    if agg.IsActive() && queue != [] {
      if queue[0].VisibleQty() == 0 {
        SweepQueueEats(agg, price, queue[1..]);
      } else {
        var qty := Min(agg.leaves, queue[0].VisibleQty());
        SweepStep(agg, price, queue);
        SweepQueueEats(FilledBy(agg, qty), price, AfterFront(queue, qty));
      }
    }
  }

  lemma {:induction false} SweepLevelsEats(agg: OrderState, levels: seq<Level>)
    requires Trading(agg)
    ensures var s, e := SweepLevels(agg, levels), EatLevels(agg.leaves, agg.side, BoundOf(agg), levels);
            s.levels == e.left && s.agg.leaves == e.qty
    decreases |levels|
  {
    if agg.IsActive() && levels != [] && Reaches(agg, levels[0].price) {
      SweepQueueEats(agg, levels[0].price, levels[0].queue);
      SweepQueueKeeps(agg, levels[0].price, levels[0].queue);
      SweepLevelsEats(SweepQueue(agg, levels[0].price, levels[0].queue).agg, levels[1..]);
    }
  }

  /** Two trades with one order within its visible lot are one. */
  lemma TradedTwice(r: OrderState, a: nat, b: nat)
    requires Clean(r) && 0 < a < r.VisibleQty() && a + b <= r.VisibleQty() && 0 < b
    ensures Traded(Traded(r, a), b) == Traded(r, a + b)
    ensures Traded(r, a).VisibleQty() == r.VisibleQty() - a && !Traded(r, a).IsFilled() && Clean(Traded(r, a))
  {
    TradedKeeps(r, a);
  }

  lemma EatStep(qty: nat, queue: seq<OrderState>)
    requires qty != 0 && queue != [] && 0 < queue[0].VisibleQty()
    ensures var lot := Min(qty, queue[0].VisibleQty());
            EatQueue(qty, queue) == EatQueue(qty - lot, AfterFront(queue, lot))
  {
  }

  lemma {:induction false} EatFrontInTwo(a: nat, b: nat, queue: seq<OrderState>)
    requires queue != [] && Clean(queue[0]) && 0 < a < queue[0].VisibleQty()
    ensures EatQueue(a, queue) == Eaten(0, AfterFront(queue, a))
    ensures 0 < b ==> EatQueue(b, AfterFront(queue, a)) == EatQueue(a + b, queue)
  {
    hide FilledBy, Traded, Sound;
    EatStep(a, queue);
    TradedKeeps(queue[0], a);
    if 0 < b {
      var lot := Min(b, queue[0].VisibleQty() - a);
      TradedTwice(queue[0], a, lot);
      var mid := AfterFront(queue, a);
      EatStep(b, mid);
      EatStep(a + b, queue);
      assert AfterFront(mid, lot) == AfterFront(queue, a + lot);
    }
  }

  lemma {:induction false} EatQueueTwice(a: nat, b: nat, queue: seq<OrderState>)
    requires SoundQueue(queue)
    ensures var first := EatQueue(a, queue);
            var second, whole := EatQueue(b, first.left), EatQueue(a + b, queue);
            && whole.left == second.left && whole.qty == first.qty + second.qty
            && (first.left != [] ==> first.qty == 0)
            && SoundQueue(first.left)
    decreases |queue|, a
  {
    hide Traded, Sound;
    if a != 0 && queue != [] {
      var r := queue[0];
      assert r in queue;
      var v := r.VisibleQty();
      if v == 0 {
        EatQueueTwice(a, b, queue[1..]);
      } else if v <= a {
        AfterFrontSound(queue, v);
        EatStep(a, queue);
        EatStep(a + b, queue);
        EatQueueTwice(a - v, b, AfterFront(queue, v));
      } else {
        AfterFrontSound(queue, a);
        EatFrontInTwo(a, b, queue);
      }
    }
  }

  lemma {:induction false} EatNothing(queue: seq<OrderState>)
    ensures EatQueue(0, queue) == Eaten(0, queue)
    ensures forall b: nat :: EatQueue(b, []) == Eaten(b, [])
  {
  }

  lemma {:induction false} EatLevelsTwice(a: nat, b: nat, side: Side, bound: Bound, levels: seq<Level>)
    requires SoundLevels(levels)
    ensures var first := EatLevels(a, side, bound, levels);
            var second, whole := EatLevels(b, side, bound, first.left), EatLevels(a + b, side, bound, levels);
            && whole.left == second.left && whole.qty == first.qty + second.qty
    decreases |levels|
  {
    hide EatQueue, SoundQueue;
    if levels != [] { EatNothing(levels[0].queue); }
    if a != 0 && levels != [] && Within(side, bound, levels[0].price) {
      assert levels[0] in levels;
      EatQueueTwice(a, b, levels[0].queue);
      var e := EatQueue(a, levels[0].queue);
      if e.left == [] {
        EatLevelsTwice(e.qty, b, side, bound, levels[1..]);
      }
    }
  }

  /**
    `a` and then `b` leave the opposite side, hidden and displayed parts included, exactly as `c` alone does when
    `c` has their quantities together; the remainders add up; and on a clean side every resting order trades the same.
   */
  lemma {:induction false} SplitAggressor(a: OrderState, b: OrderState, c: OrderState, levels: seq<Level>,
                                          active: map<nat, Ref>)
    requires SideOk(a.side.Opposite(), levels, active) && Trading(a) && Trading(b) && Trading(c)
    requires a.side == b.side == c.side && BoundOf(a) == BoundOf(b) == BoundOf(c) && a.leaves + b.leaves == c.leaves
    ensures var s := SweepLevels(a, levels);
            var t := SweepLevels(b, s.levels);
            var u := SweepLevels(c, levels);
            && t.levels == u.levels
            && s.agg.leaves + t.agg.leaves == u.agg.leaves
            && (CleanLevels(levels) ==> forall id: nat :: Taken(s.fills, id) + Taken(t.fills, id) == Taken(u.fills, id))
  {
    var s := SweepLevels(a, levels);
    var t := SweepLevels(b, s.levels);
    var u := SweepLevels(c, levels);
    SideSound(a.side.Opposite(), levels, active);
    SweepLevelsEats(a, levels);
    SweepLevelsEats(b, s.levels);
    SweepLevelsEats(c, levels);
    EatLevelsTwice(a.leaves, b.leaves, a.side, BoundOf(a), levels);
    if CleanLevels(levels) {
      SweepLevelsOk(a, a.side.Opposite(), levels, active);
      SideSound(a.side.Opposite(), s.levels, active);
      CleanSideDropsNone(a, levels);
      CleanSideDropsNone(b, s.levels);
      CleanSideDropsNone(c, levels);
      forall id: nat ensures Taken(s.fills, id) + Taken(t.fills, id) == Taken(u.fills, id) {
        SweepLevelsLedger(a, levels, id);
        SweepLevelsLedger(b, s.levels, id);
        SweepLevelsLedger(c, levels, id);
      }
    }
  }
}
