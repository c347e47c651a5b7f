/**
  A clean book trades like the naive engine: every sweep, icebergs included, is the naive sweep on (id, leaves).
  Two clean books that agree on (id, leaves) therefore go on agreeing, through the stop cascade.
 */
module Transparency {
  import opened Orders
  import opened BookSpec
  import opened BookInvariants
  import opened BaselineSpec

  // ----- what the naive engine sees of a book -----

  function Seen(o: OrderState): SimpleOrder {
    SimpleOrder(o.id, o.price, o.leaves)
  }

  function SeenQueue(queue: seq<OrderState>): seq<SimpleOrder> {
    seq(|queue|, i requires 0 <= i < |queue| => Seen(queue[i]))
  }

  function SeenLevel(l: Level): SimpleLevel {
    SimpleLevel(l.price, SeenQueue(l.queue))
  }

  function SeenLevels(levels: seq<Level>): seq<SimpleLevel> {
    seq(|levels|, i requires 0 <= i < |levels| => SeenLevel(levels[i]))
  }

  predicate NoIcebergs(queue: seq<OrderState>) {
    forall o | o in queue :: !o.kind.Iceberg?
  }

  /** An aggressor as the loops meet it: active exactly while it has leaves. */
  predicate Trading(agg: OrderState) {
    agg.IsActive() <==> 0 < agg.leaves
  }

  /** A fill in front of later ones: joined to the next if that goes on with the same unfinished order. */
  function Glue(f: Fill, later: seq<Fill>): seq<Fill> {
    if later != [] && !f.done && later[0].id == f.id && later[0].price == f.price then
      [later[0].(qty := f.qty + later[0].qty)] + later[1..]
    else [f] + later
  }

  /** Neighbouring fills of one resting order, the earlier of which did not finish it, put together. */
  function Merged(fills: seq<Fill>): seq<Fill> {
    if fills == [] then [] else Glue(fills[0], Merged(fills[1..]))
  }

  lemma {:induction false} MergedCons(f: Fill, fills: seq<Fill>)
    ensures Merged([f] + fills) == Glue(f, Merged(fills)) && Merged([]) == []
  {
    assert ([f] + fills)[1..] == fills;
  }

  lemma GlueConcat(f: Fill, m: seq<Fill>, n: seq<Fill>)
    requires m != [] || f.done
    ensures Glue(f, m + n) == Glue(f, m) + n
  {
    if m == [] {
      assert m + n == n && Glue(f, n) == [f] + n;
    } else {
      assert (m + n)[0] == m[0] && (m + n)[1..] == m[1..] + n;
    }
  }

  /** Taking `k` early from the front changes nothing but the number of fills. */
  lemma DrainFrontInTwo(qty: nat, k: nat, price: int, queue: seq<SimpleOrder>)
    requires queue != [] && k < qty && k < queue[0].qty
    ensures var whole := DrainQueue(qty, price, queue);
            var r := queue[0];
            var rest := DrainQueue(qty - k, price, [r.(qty := r.qty - k)] + queue[1..]);
            && whole.qty == rest.qty && whole.left == rest.left
            && rest.fills != [] && rest.fills[0].id == r.id && rest.fills[0].price == price
            && whole.fills == [rest.fills[0].(qty := k + rest.fills[0].qty)] + rest.fills[1..]
  {
    var r := queue[0];
    var q := [r.(qty := r.qty - k)] + queue[1..];
    assert q[1..] == queue[1..];
  }

  /** The sweep `s` did what the naive `t` did; without icebergs even in the same fills. */
  predicate Alike(s: QueueSweep, t: SimpleSweep<SimpleOrder>, plain: bool) {
    && Trading(s.agg) && s.agg.leaves == t.qty && CleanQueue(s.queue)
    && SeenQueue(s.queue) == t.left
    && Merged(s.fills) == t.fills
    && (plain ==> s.fills == t.fills && NoIcebergs(s.queue))
  }

  lemma AlikeFinished(s: QueueSweep, t: SimpleSweep<SimpleOrder>, plain: bool, f: Fill)
    requires Alike(s, t, plain) && f.done
    ensures Alike(s.(fills := [f] + s.fills), t.(fills := [f] + t.fills), plain)
  {
    MergedCons(f, s.fills);
  }

  lemma AlikeLot(s: QueueSweep, t: SimpleSweep<SimpleOrder>, f: Fill)
    requires Alike(s, t, false) && !f.done
    requires t.fills != [] && t.fills[0].id == f.id && t.fills[0].price == f.price
    ensures Alike(s.(fills := [f] + s.fills),
                  t.(fills := [t.fills[0].(qty := f.qty + t.fills[0].qty)] + t.fills[1..]), false)
  {
    MergedCons(f, s.fills);
  }

  lemma DrainStepWhole(qty: nat, price: int, queue: seq<SimpleOrder>)
    requires 0 < qty && queue != [] && queue[0].qty <= qty
    ensures var t := DrainQueue(qty - queue[0].qty, price, queue[1..]);
            DrainQueue(qty, price, queue) == t.(fills := [Fill(queue[0].id, price, queue[0].qty, true)] + t.fills)
  {
  }

  lemma {:induction false} DrainStepPart(qty: nat, price: int, queue: seq<SimpleOrder>)
    requires 0 < qty && queue != [] && qty < queue[0].qty
    ensures DrainQueue(qty, price, queue) ==
            SimpleSweep(0, [queue[0].(qty := queue[0].qty - qty)] + queue[1..], [Fill(queue[0].id, price, qty, false)])
  {
  }

  lemma AfterFrontClean(queue: seq<OrderState>, qty: nat)
    requires queue != [] && CleanQueue(queue) && qty <= queue[0].VisibleQty()
    ensures CleanQueue(AfterFront(queue, qty))
    ensures NoIcebergs(queue) ==> NoIcebergs(AfterFront(queue, qty))
  {
    var r1, tail := Traded(queue[0], qty), queue[1..];
    assert queue[0] in queue;
    TradedKeeps(queue[0], qty);
    assert CleanQueue(tail) && (NoIcebergs(queue) ==> NoIcebergs(tail));
    if r1.IsFilled() {
      assert AfterFront(queue, qty) == tail;
    } else {
      assert AfterFront(queue, qty) == [r1] + tail;
    }
  }

  /** The queue left by a trade, as the naive engine sees it. */
  lemma AfterFrontSeen(queue: seq<OrderState>, qty: nat)
    requires queue != [] && Clean(queue[0]) && qty <= queue[0].VisibleQty()
    ensures var r, next := queue[0], AfterFront(queue, qty);
            && SeenQueue(queue)[0] == Seen(r) && SeenQueue(queue)[1..] == SeenQueue(queue[1..])
            && Traded(r, qty).IsFilled() == (qty == r.leaves)
            && SeenQueue(next) ==
               (if qty == r.leaves then [] else [Seen(r).(qty := r.leaves - qty)]) + SeenQueue(queue[1..])
  {
    TradedKeeps(queue[0], qty);
  }

  lemma {:induction false} SeenStopped(agg: OrderState, price: int, queue: seq<OrderState>, plain: bool)
    requires Trading(agg) && CleanQueue(queue) && (plain ==> NoIcebergs(queue))
    requires !agg.IsActive() || queue == []
    ensures Alike(SweepQueue(agg, price, queue), DrainQueue(agg.leaves, price, SeenQueue(queue)), plain)
  {
  }

  /** One turn of the two loops, the front of the queue being finished. */
  lemma {:induction false} TurnFinishes(qty: nat, price: int, queue: seq<OrderState>, plain: bool, s: QueueSweep)
    requires queue != [] && Clean(queue[0]) && queue[0].VisibleQty() == queue[0].leaves <= qty
    requires Alike(s, DrainQueue(qty - queue[0].leaves, price, SeenQueue(queue[1..])), plain)
    ensures Alike(s.(fills := [Fill(queue[0].id, price, queue[0].leaves, true)] + s.fills),
                  DrainQueue(qty, price, SeenQueue(queue)), plain)
  {
    var f := Fill(queue[0].id, price, queue[0].leaves, true);
    assert SeenQueue(queue)[0] == Seen(queue[0]) && SeenQueue(queue)[1..] == SeenQueue(queue[1..]);
    DrainStepWhole(qty, price, SeenQueue(queue));
    AlikeFinished(s, DrainQueue(qty - queue[0].leaves, price, SeenQueue(queue[1..])), plain, f);
  }

  /** The front outlasting the aggressor. */
  lemma {:induction false} TurnEnds(agg: OrderState, price: int, queue: seq<OrderState>, plain: bool,
                                    next: seq<OrderState>)
    requires queue != [] && Clean(queue[0]) && 0 < agg.leaves < queue[0].leaves
    requires SeenQueue(next) == [Seen(queue[0]).(qty := queue[0].leaves - agg.leaves)] + SeenQueue(queue[1..])
    requires CleanQueue(next) && (plain ==> NoIcebergs(next))
    ensures Alike(QueueSweep(FilledBy(agg, agg.leaves), next, [Fill(queue[0].id, price, agg.leaves, false)]),
                  DrainQueue(agg.leaves, price, SeenQueue(queue)), plain)
  {
    assert SeenQueue(queue)[0] == Seen(queue[0]) && SeenQueue(queue)[1..] == SeenQueue(queue[1..]);
    DrainStepPart(agg.leaves, price, SeenQueue(queue));
    MergedCons(Fill(queue[0].id, price, agg.leaves, false), []);
  }

  /** The front giving one lot of several. */
  lemma {:induction false} TurnReplenishes(qty: nat, price: int, queue: seq<OrderState>, s: QueueSweep,
                                           next: seq<OrderState>)
    requires queue != [] && Clean(queue[0]) && queue[0].VisibleQty() < qty && queue[0].VisibleQty() < queue[0].leaves
    requires SeenQueue(next)
          == [Seen(queue[0]).(qty := queue[0].leaves - queue[0].VisibleQty())] + SeenQueue(queue[1..])
    requires Alike(s, DrainQueue(qty - queue[0].VisibleQty(), price, SeenQueue(next)), false)
    ensures Alike(s.(fills := [Fill(queue[0].id, price, queue[0].VisibleQty(), false)] + s.fills),
                  DrainQueue(qty, price, SeenQueue(queue)), false)
  {
    var v := queue[0].VisibleQty();
    assert SeenQueue(queue)[0] == Seen(queue[0]) && SeenQueue(queue)[1..] == SeenQueue(queue[1..]);
    DrainFrontInTwo(qty, v, price, SeenQueue(queue));
    AlikeLot(s, DrainQueue(qty - v, price, SeenQueue(next)), Fill(queue[0].id, price, v, false));
  }

  lemma {:induction false} Turn(agg: OrderState, price: int, queue: seq<OrderState>, plain: bool, qty: nat,
                                s: QueueSweep)
    requires Trading(agg) && agg.IsActive() && queue != [] && CleanQueue(queue) && (plain ==> NoIcebergs(queue))
    requires qty == Min(agg.leaves, queue[0].VisibleQty())
    requires Alike(s, DrainQueue(agg.leaves - qty, price, SeenQueue(AfterFront(queue, qty))), plain)
    requires qty == agg.leaves ==> s == QueueSweep(FilledBy(agg, qty), AfterFront(queue, qty), [])
    ensures Alike(s.(fills := [Fill(queue[0].id, price, qty, Traded(queue[0], qty).IsFilled())] + s.fills),
                  DrainQueue(agg.leaves, price, SeenQueue(queue)), plain)
  {
    assert queue[0] in queue;
    var next := AfterFront(queue, qty);
    AfterFrontSeen(queue, qty);
    AfterFrontClean(queue, qty);
    if qty == queue[0].leaves {
      assert next == queue[1..];
      TurnFinishes(agg.leaves, price, queue, plain, s);
    } else if qty == agg.leaves {
      TurnEnds(agg, price, queue, plain, next);
    } else {
      TurnReplenishes(agg.leaves, price, queue, s, next);
    }
  }

  /** The inner loop on a clean queue is the naive inner loop, up to the fills an iceberg gives in lots. */
  lemma {:induction false} SweepQueueSeen(agg: OrderState, price: int, queue: seq<OrderState>, plain: bool)
    requires Trading(agg) && CleanQueue(queue) && (plain ==> NoIcebergs(queue))
    ensures Alike(SweepQueue(agg, price, queue), DrainQueue(agg.leaves, price, SeenQueue(queue)), plain)
    decreases |queue|, if agg.IsActive() then agg.leaves + 1 else 0
  {
    hide SeenQueue, Alike, DrainQueue, Sound;
    if !agg.IsActive() || queue == [] {
      SeenStopped(agg, price, queue, plain);
    } else {
      assert queue[0] in queue;
      var qty := Min(agg.leaves, queue[0].VisibleQty());
      var agg1 := FilledBy(agg, qty);
      SweepStep(agg, price, queue);
      AfterFrontClean(queue, qty);
      SweepQueueSeen(agg1, price, AfterFront(queue, qty), plain);
      assert agg1.leaves == agg.leaves - qty;
      Turn(agg, price, queue, plain, qty, SweepQueue(agg1, price, AfterFront(queue, qty)));
    }
  }

  // ----- the outer loop -----

  function BoundOf(agg: OrderState): Bound {
    if agg.kind.Market? then NoBound else Bound(agg.price)
  }

  predicate PlainLevels(levels: seq<Level>) {
    forall l | l in levels :: NoIcebergs(l.queue)
  }

  predicate SideAlike(s: SideSweep, t: SimpleSweep<SimpleLevel>, plain: bool) {
    && Trading(s.agg) && s.agg.leaves == t.qty && CleanLevels(s.levels)
    && SeenLevels(s.levels) == t.left
    && Merged(s.fills) == t.fills
    && (plain ==> s.fills == t.fills && PlainLevels(s.levels))
  }

  /** A clean level is only exhausted by finishing its last order. */
  lemma {:induction false} LastDone(agg: OrderState, price: int, queue: seq<OrderState>)
    requires Trading(agg) && CleanQueue(queue) && queue != [] && SweepQueue(agg, price, queue).queue == []
    ensures var fills := SweepQueue(agg, price, queue).fills; fills != [] && fills[|fills| - 1].done
    decreases |queue|, if agg.IsActive() then agg.leaves + 1 else 0
  {
    var r := queue[0];
    assert r in queue;
    var qty := Min(agg.leaves, r.VisibleQty());
    SweepStep(agg, price, queue);
    AfterFrontClean(queue, qty);
    TradedKeeps(r, qty);
    if AfterFront(queue, qty) != [] {
      LastDone(FilledBy(agg, qty), price, AfterFront(queue, qty));
    }
  }

  lemma {:induction false} MergedConcat(f: seq<Fill>, g: seq<Fill>)
    requires f == [] || f[|f| - 1].done
    ensures Merged(f + g) == Merged(f) + Merged(g)
  {
    if f == [] {
      assert f + g == g && Merged(f) == [];
    } else {
      hide Merged, Glue;
      assert f == [f[0]] + f[1..] && f + g == [f[0]] + (f[1..] + g);
      MergedCons(f[0], f[1..]);
      MergedCons(f[0], f[1..] + g);
      MergedConcat(f[1..], g);
      if f[1..] != [] {
        MergedSome(f[1..]);
      }
      GlueConcat(f[0], Merged(f[1..]), Merged(g));
    }
  }

  lemma {:induction false} MergedSome(f: seq<Fill>)
    requires f != []
    ensures Merged(f) != []
  {
  }

  /** Sweeping changes nothing of an aggressor but its leaves, status and display. */
  lemma {:induction false} SweepQueueKeeps(agg: OrderState, price: int, queue: seq<OrderState>)
    requires Trading(agg)
    ensures var a := SweepQueue(agg, price, queue).agg;
            a.kind == agg.kind && a.price == agg.price && a.side == agg.side && Trading(a)
    decreases |queue|, if agg.IsActive() then agg.leaves + 1 else 0
  {
    if agg.IsActive() && queue != [] {
      if queue[0].VisibleQty() == 0 {
        SweepQueueKeeps(agg, price, queue[1..]);
      } else {
        var qty := Min(agg.leaves, queue[0].VisibleQty());
        SweepStep(agg, price, queue);
        SweepQueueKeeps(FilledBy(agg, qty), price, AfterFront(queue, qty));
      }
    }
  }

  lemma SeenLevelsCons(l: Level, levels: seq<Level>)
    ensures SeenLevels([l] + levels) == [SeenLevel(l)] + SeenLevels(levels)
    ensures levels != [] ==>
              SeenLevels(levels)[0] == SeenLevel(levels[0]) && SeenLevels(levels)[1..] == SeenLevels(levels[1..])
  {
  }

  lemma {:induction false} SideStopped(agg: OrderState, levels: seq<Level>, plain: bool)
    requires Trading(agg) && CleanLevels(levels) && (plain ==> PlainLevels(levels))
    requires !agg.IsActive() || levels == [] || !Reaches(agg, levels[0].price)
    ensures SideAlike(SweepLevels(agg, levels), DrainLevels(agg.leaves, agg.side, BoundOf(agg), SeenLevels(levels)),
                      plain)
  {
    SeenLevelsCons(Level(0, []), levels);
  }

  /** The naive outer loop on the first level, seen through `SeenLevels`. */
  lemma {:induction false} DrainFirst(agg: OrderState, levels: seq<Level>)
    requires Trading(agg) && agg.IsActive() && levels != [] && Reaches(agg, levels[0].price)
    ensures var qty, side, bound, seen := agg.leaves, agg.side, BoundOf(agg), SeenLevels(levels);
            var d := DrainQueue(qty, levels[0].price, SeenQueue(levels[0].queue));
            var t := DrainLevels(d.qty, side, bound, SeenLevels(levels[1..]));
            DrainLevels(qty, side, bound, seen) ==
            if d.left == [] then t.(fills := d.fills + t.fills)
            else SimpleSweep(d.qty, [SimpleLevel(levels[0].price, d.left)] + SeenLevels(levels[1..]), d.fills)
  {
    hide DrainQueue, SeenQueue;
    SeenLevelsCons(levels[0], levels);
  }

  /** A level that is used up: the sweep goes on behind it. */
  lemma LevelEmptied(agg: OrderState, levels: seq<Level>, plain: bool, s: QueueSweep, t: SideSweep)
    requires Trading(agg) && agg.IsActive() && levels != [] && Reaches(agg, levels[0].price)
    requires Alike(s, DrainQueue(agg.leaves, levels[0].price, SeenQueue(levels[0].queue)), plain) && s.queue == []
    requires s.fills != [] && s.fills[|s.fills| - 1].done
    requires SideAlike(t, DrainLevels(s.agg.leaves, agg.side, BoundOf(agg), SeenLevels(levels[1..])), plain)
    ensures SideAlike(t.(fills := s.fills + t.fills),
                      DrainLevels(agg.leaves, agg.side, BoundOf(agg), SeenLevels(levels)), plain)
  {
    hide DrainQueue, DrainLevels, SeenLevels, CleanLevels, PlainLevels, Merged, BoundOf, Reaches;
    DrainFirst(agg, levels);
    MergedConcat(s.fills, t.fills);
  }

  /** A level that outlasts the aggressor. */
  lemma LevelKept(agg: OrderState, levels: seq<Level>, plain: bool, s: QueueSweep)
    requires Trading(agg) && agg.IsActive() && levels != [] && Reaches(agg, levels[0].price)
    requires Alike(s, DrainQueue(agg.leaves, levels[0].price, SeenQueue(levels[0].queue)), plain) && s.queue != []
    requires CleanLevels(levels) && (plain ==> PlainLevels(levels))
    ensures SideAlike(SideSweep(s.agg, [Level(levels[0].price, s.queue)] + levels[1..], s.fills),
                      DrainLevels(agg.leaves, agg.side, BoundOf(agg), SeenLevels(levels)), plain)
  {
    hide DrainQueue, DrainLevels, SeenLevels, Merged, BoundOf, Reaches, CleanQueue, NoIcebergs;
    DrainFirst(agg, levels);
    SeenLevelsCons(Level(levels[0].price, s.queue), levels[1..]);
    assert forall l | l in [Level(levels[0].price, s.queue)] + levels[1..] ::
        l == Level(levels[0].price, s.queue) || l in levels;
  }

  /** The outer loop on a clean side is the naive outer loop. */
  lemma {:induction false} SweepLevelsSeen(agg: OrderState, levels: seq<Level>, plain: bool)
    requires Trading(agg) && CleanLevels(levels) && (plain ==> PlainLevels(levels))
    requires forall l | l in levels :: l.queue != []
    ensures SideAlike(SweepLevels(agg, levels), DrainLevels(agg.leaves, agg.side, BoundOf(agg), SeenLevels(levels)),
                      plain)
    decreases |levels|
  {
    hide SideAlike, Alike, SeenLevels, DrainLevels, DrainQueue, SweepQueue, CleanQueue, NoIcebergs;
    if !agg.IsActive() || levels == [] || !Reaches(agg, levels[0].price) {
      SideStopped(agg, levels, plain);
    } else {
      var p, q, tail := levels[0].price, levels[0].queue, levels[1..];
      assert levels[0] in levels;
      var s := SweepQueue(agg, p, q);
      SweepQueueSeen(agg, p, q, plain);
      SweepQueueKeeps(agg, p, q);
      if s.queue == [] {
        LastDone(agg, p, q);
        SweepLevelsSeen(s.agg, tail, plain);
        LevelEmptied(agg, levels, plain, s, SweepLevels(s.agg, tail));
      } else {
        LevelKept(agg, levels, plain, s);
      }
    }
  }
}
