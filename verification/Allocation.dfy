/** Who gets how much: the greedy allocation in price-time priority, stated without any loop over levels. */
module Allocation {
  import opened Orders
  import opened BookSpec
  import opened BookInvariants
  import opened BaselineSpec
  import opened Transparency

  // ----- a side as one line of orders, best price first, then by time -----

  function Line(levels: seq<SimpleLevel>): seq<SimpleOrder> {
    if levels == [] then [] else levels[0].queue + Line(levels[1..])
  }

  /** The orders of the line at prices the aggressor may trade at, wherever they stand. */
  function Reachable(side: Side, bound: Bound, line: seq<SimpleOrder>): seq<SimpleOrder> {
    if line == [] then []
    else (if Within(side, bound, line[0].price) then [line[0]] else []) + Reachable(side, bound, line[1..])
  }

  function Total(line: seq<SimpleOrder>): nat {
    if line == [] then 0 else line[0].qty + Total(line[1..])
  }

  /** The i-th order's share of `qty`: what those before it leave over, up to its own size. */
  function Share(qty: nat, line: seq<SimpleOrder>, i: nat): nat
    requires i < |line|
  {
    var before := Total(line[..i]);
    if qty <= before then 0 else Min(qty - before, line[i].qty)
  }

  function Served(qty: nat, line: seq<SimpleOrder>): seq<Fill> {
    if qty == 0 || line == [] then []
    else
      var taken := Min(qty, line[0].qty);
      [Fill(line[0].id, line[0].price, taken, taken == line[0].qty)] + Served(qty - taken, line[1..])
  }

  /** The line with `qty` consumed from its front. */
  function Unserved(qty: nat, line: seq<SimpleOrder>): seq<SimpleOrder>
    decreases |line|
  {
    if qty == 0 || line == [] then line
    else if line[0].qty <= qty then Unserved(qty - line[0].qty, line[1..])
    else [line[0].(qty := line[0].qty - qty)] + line[1..]
  }

  lemma {:induction false} TotalConcat(a: seq<SimpleOrder>, b: seq<SimpleOrder>)
    ensures Total(a + b) == Total(a) + Total(b)
  {
    if a == [] {
      assert a + b == b;
    } else {
      assert (a + b)[1..] == a[1..] + b;
      TotalConcat(a[1..], b);
    }
  }

  /** Serving goes down the line: an order is touched only if all before it are used up, and gets its share. */
  lemma {:induction false} ServedShares(qty: nat, line: seq<SimpleOrder>, i: nat)
    requires i < |line| && forall o | o in line :: 0 < o.qty
    ensures var s := Served(qty, line);
            && |s| <= |line|
            && (i < |s| <==> Total(line[..i]) < qty)
            && (i < |s| ==>
                  s[i] == Fill(line[i].id, line[i].price, Share(qty, line, i), Share(qty, line, i) == line[i].qty))
            && (i >= |s| ==> Share(qty, line, i) == 0)
  {
    if qty != 0 {
      var taken := Min(qty, line[0].qty);
      assert line[0] in line;
      if i == 0 {
        assert line[..0] == [];
        if |line| > 1 {
          ServedShares(qty - taken, line[1..], 0);
        }
      } else {
        ServedShares(qty - taken, line[1..], i - 1);
        assert line[..i] == [line[0]] + line[1..][..i - 1];
        assert line[..i][1..] == line[1..][..i - 1];
      }
    }
  }

  // ----- the naive loops serve the line -----

  lemma {:induction false} DrainQueueServes(qty: nat, price: int, queue: seq<SimpleOrder>)
    requires forall o | o in queue :: o.price == price && 0 < o.qty
    ensures var t := DrainQueue(qty, price, queue);
            && t.qty == qty - Min(qty, Total(queue))
            && t.left == Unserved(qty, queue)
            && t.fills == Served(qty, queue)
            && (t.left == [] <==> Total(queue) <= qty)
    decreases |queue|, qty
  {
    if qty != 0 && queue != [] {
      var r := queue[0];
      assert r in queue;
      if r.qty <= qty {
        DrainStepWhole(qty, price, queue);
        DrainQueueServes(qty - r.qty, price, queue[1..]);
      } else {
        DrainStepPart(qty, price, queue);
      }
    } else if queue != [] {
      assert queue[0] in queue;
    }
  }

  predicate SimpleSideOk(side: Side, levels: seq<SimpleLevel>) {
    && (forall i, j | 0 <= i < j < |levels| :: Better(side, levels[i].price, levels[j].price))
    && (forall l | l in levels :: l.queue != [] && forall o | o in l.queue :: o.price == l.price && 0 < o.qty)
  }

  lemma {:induction false} ServedCons(qty: nat, o: SimpleOrder, line: seq<SimpleOrder>)
    ensures var taken := Min(qty, o.qty);
            Served(qty, [o] + line) ==
            if qty == 0 then [] else [Fill(o.id, o.price, taken, taken == o.qty)] + Served(qty - taken, line)
    ensures Total([o] + line) == o.qty + Total(line)
    ensures Served(qty, []) == [] && Total([]) == 0
  {
    assert ([o] + line)[1..] == line;
  }

  lemma {:induction false} ServedConcat(qty: nat, a: seq<SimpleOrder>, b: seq<SimpleOrder>)
    requires forall o | o in a :: 0 < o.qty
    ensures Served(qty, a + b) == Served(qty, a) + Served(qty - Min(qty, Total(a)), b)
  {
    if a == [] {
      assert a + b == b && Served(qty, a) == [];
    } else {
      hide Served, Total;
      assert a[0] in a;
      var taken := Min(qty, a[0].qty);
      HeadFirst(a, b);
      ServedCons(qty, a[0], a[1..]);
      ServedCons(qty, a[0], a[1..] + b);
      ServedConcat(qty - taken, a[1..], b);
      var left := qty - Min(qty, Total(a));
      assert left == (qty - taken) - Min(qty - taken, Total(a[1..]));
      if qty == 0 {
        ServedZero(b);
      } else {
        var f, x := Fill(a[0].id, a[0].price, taken, taken == a[0].qty), Served(qty - taken, a[1..]);
        ConsConcat(f, x, Served(left, b));
      }
    }
  }

  lemma HeadFirst<T>(a: seq<T>, b: seq<T>)
    requires a != []
    ensures a == [a[0]] + a[1..] && a + b == [a[0]] + (a[1..] + b)
  {
  }

  lemma ConsConcat<T>(f: T, x: seq<T>, y: seq<T>)
    ensures ([f] + x) + y == [f] + (x + y)
  {
  }

  lemma {:induction false} ServedZero(line: seq<SimpleOrder>)
    ensures Served(0, line) == []
  {
  }

  lemma {:induction false} UnservedConcat(qty: nat, a: seq<SimpleOrder>, b: seq<SimpleOrder>)
    requires forall o | o in a :: 0 < o.qty
    ensures Unserved(qty, a + b) == if qty < Total(a) then Unserved(qty, a) + b else Unserved(qty - Total(a), b)
  {
    if a == [] {
      assert a + b == b;
    } else {
      assert a[0] in a;
      assert (a + b)[1..] == a[1..] + b && (a + b)[0] == a[0];
      if a[0].qty <= qty {
        UnservedConcat(qty - a[0].qty, a[1..], b);
      }
    }
  }

  lemma {:induction false} ReachableCons(side: Side, bound: Bound, o: SimpleOrder, line: seq<SimpleOrder>)
    ensures Reachable(side, bound, [o] + line) ==
            (if Within(side, bound, o.price) then [o] else []) + Reachable(side, bound, line)
    ensures Reachable(side, bound, []) == []
  {
    assert ([o] + line)[1..] == line;
  }

  lemma {:induction false} ReachableConcat(side: Side, bound: Bound, a: seq<SimpleOrder>, b: seq<SimpleOrder>)
    ensures Reachable(side, bound, a + b) == Reachable(side, bound, a) + Reachable(side, bound, b)
  {
    if a == [] {
      assert a + b == b && Reachable(side, bound, a) == [];
    } else {
      hide Reachable;
      assert a == [a[0]] + a[1..] && a + b == [a[0]] + (a[1..] + b);
      ReachableCons(side, bound, a[0], a[1..]);
      ReachableCons(side, bound, a[0], a[1..] + b);
      ReachableConcat(side, bound, a[1..], b);
    }
  }

  lemma {:induction false} ReachableQueue(side: Side, bound: Bound, queue: seq<SimpleOrder>, price: int)
    requires forall o | o in queue :: o.price == price
    ensures Reachable(side, bound, queue) == if Within(side, bound, price) then queue else []
  {
    if queue != [] {
      assert queue[0] in queue;
      ReachableQueue(side, bound, queue[1..], price);
    }
  }

  /** Past the first price out of reach nothing is in reach. */
  lemma {:induction false} ReachableNone(side: Side, bound: Bound, levels: seq<SimpleLevel>)
    requires SimpleSideOk(side.Opposite(), levels)
    requires levels != [] ==> !Within(side, bound, levels[0].price)
    ensures Reachable(side, bound, Line(levels)) == []
    decreases |levels|
  {
    if levels != [] {
      assert levels[0] in levels;
      ReachableQueue(side, bound, levels[0].queue, levels[0].price);
      ReachableConcat(side, bound, levels[0].queue, Line(levels[1..]));
      ReachableNone(side, bound, levels[1..]);
    }
  }

  /** What a naive sweep does, said of the line alone. */
  predicate ServesLine(qty: nat, side: Side, bound: Bound, levels: seq<SimpleLevel>, t: SimpleSweep<SimpleLevel>) {
    var line := Line(levels);
    var r := Reachable(side, bound, line);
    && t.qty == qty - Min(qty, Total(r))
    && t.fills == Served(qty, r)
    && Line(t.left) == Unserved(Min(qty, Total(r)), line)
  }

  /** Serving the first level, then what is in reach (`r`) of the rest (`rest`). */
  lemma {:induction false} FirstLevelOutlasts(qty: nat, first: seq<SimpleOrder>, r: seq<SimpleOrder>,
                                              rest: seq<SimpleOrder>)
    requires (forall o | o in first :: 0 < o.qty) && qty < Total(first)
    ensures Total(first + r) == Total(first) + Total(r)
    ensures Served(qty, first + r) == Served(qty, first)
    ensures Unserved(qty, first + rest) == Unserved(qty, first) + rest
  {
    assert Served(qty, first + r) == Served(qty, first) by {
      ServedConcat(qty, first, r);
      assert Served(0, r) == [];
    }
    assert Unserved(qty, first + rest) == Unserved(qty, first) + rest by {
      UnservedConcat(qty, first, rest);
    }
    TotalConcat(first, r);
  }

  lemma FirstLevelServed(qty: nat, first: seq<SimpleOrder>, r: seq<SimpleOrder>, rest: seq<SimpleOrder>)
    requires (forall o | o in first :: 0 < o.qty) && Total(first) <= qty
    ensures Total(first + r) == Total(first) + Total(r)
    ensures var left := qty - Total(first);
            && Served(qty, first + r) == Served(qty, first) + Served(left, r)
            && Unserved(Total(first) + Min(left, Total(r)), first + rest) == Unserved(Min(left, Total(r)), rest)
  {
    TotalConcat(first, r);
    ServedConcat(qty, first, r);
    UnservedConcat(Total(first) + Min(qty - Total(first), Total(r)), first, rest);
  }

  lemma {:induction false} ServesOneLevel(qty: nat, side: Side, bound: Bound, levels: seq<SimpleLevel>,
                                          s: SimpleSweep<SimpleOrder>)
    requires SimpleSideOk(side.Opposite(), levels) && levels != [] && Within(side, bound, levels[0].price)
    requires qty < Total(levels[0].queue)
    requires s == SimpleSweep(0, Unserved(qty, levels[0].queue), Served(qty, levels[0].queue))
    ensures ServesLine(qty, side, bound, levels,
                       SimpleSweep(0, [SimpleLevel(levels[0].price, s.left)] + levels[1..], s.fills))
  {
    var q, tail := levels[0].queue, levels[1..];
    var left := [SimpleLevel(levels[0].price, s.left)] + tail;
    assert levels[0] in levels;
    ReachableLevel(side, bound, levels);
    FirstLevelOutlasts(qty, q, Reachable(side, bound, Line(tail)), Line(tail));
    assert left[1..] == tail;
  }

  lemma {:induction false} ServesMoreLevels(qty: nat, side: Side, bound: Bound, levels: seq<SimpleLevel>,
                                            t: SimpleSweep<SimpleLevel>)
    requires SimpleSideOk(side.Opposite(), levels) && levels != [] && Within(side, bound, levels[0].price)
    requires Total(levels[0].queue) <= qty && ServesLine(qty - Total(levels[0].queue), side, bound, levels[1..], t)
    ensures ServesLine(qty, side, bound, levels, t.(fills := Served(qty, levels[0].queue) + t.fills))
  {
    hide Served, Unserved, Reachable;
    assert levels[0] in levels;
    ReachableLevel(side, bound, levels);
    FirstLevelServed(qty, levels[0].queue, Reachable(side, bound, Line(levels[1..])), Line(levels[1..]));
  }

  lemma {:induction false} DrainLevelsServes(qty: nat, side: Side, bound: Bound, levels: seq<SimpleLevel>)
    requires SimpleSideOk(side.Opposite(), levels)
    ensures ServesLine(qty, side, bound, levels, DrainLevels(qty, side, bound, levels))
    decreases |levels|
  {
    if qty == 0 || levels == [] {
    } else if !Within(side, bound, levels[0].price) {
      ReachableNone(side, bound, levels);
    } else {
      hide Served, Unserved, Reachable, ServesLine;
      assert levels[0] in levels;
      var s := DrainQueue(qty, levels[0].price, levels[0].queue);
      DrainQueueServes(qty, levels[0].price, levels[0].queue);
      if s.left == [] {
        DrainLevelsServes(s.qty, side, bound, levels[1..]);
        ServesMoreLevels(qty, side, bound, levels, DrainLevels(s.qty, side, bound, levels[1..]));
      } else {
        ServesOneLevel(qty, side, bound, levels, s);
      }
    }
  }

  lemma {:induction false} ReachableLevel(side: Side, bound: Bound, levels: seq<SimpleLevel>)
    requires SimpleSideOk(side.Opposite(), levels) && levels != [] && Within(side, bound, levels[0].price)
    ensures Reachable(side, bound, Line(levels)) == levels[0].queue + Reachable(side, bound, Line(levels[1..]))
  {
    assert levels[0] in levels;
    ReachableQueue(side, bound, levels[0].queue, levels[0].price);
    ReachableConcat(side, bound, levels[0].queue, Line(levels[1..]));
  }

  // ----- the full engine -----

  lemma SeenSideOk(side: Side, levels: seq<Level>, active: map<nat, Ref>)
    requires SideOk(side, levels, active) && CleanLevels(levels)
    ensures SimpleSideOk(side, SeenLevels(levels))
  {
    forall l | l in SeenLevels(levels)
      ensures l.queue != [] && forall o | o in l.queue :: o.price == l.price && 0 < o.qty
    {
      var i :| 0 <= i < |levels| && l == SeenLevel(levels[i]);
      assert levels[i] in levels && LevelOk(side, levels[i], active);
      forall o | o in l.queue ensures o.price == l.price && 0 < o.qty {
        var j :| 0 <= j < |levels[i].queue| && o == Seen(levels[i].queue[j]);
        assert levels[i].queue[j] in levels[i].queue;
      }
    }
  }

  /**
    Greedy maximal fill in price-time priority, for a clean opposite side: an aggressor trades the smaller of its
    quantity and all that rests, hidden parts included, at prices it accepts; the line keeps its order and loses
    exactly that much from its front; and the trades, an iceberg's lots counted together, are the orders' shares.
   */
  lemma {:induction false} GreedyFill(agg: OrderState, levels: seq<Level>, active: map<nat, Ref>)
    requires SideOk(agg.side.Opposite(), levels, active) && CleanLevels(levels) && Trading(agg)
    ensures var s := SweepLevels(agg, levels);
            var line := Line(SeenLevels(levels));
            var r := Reachable(agg.side, BoundOf(agg), line);
            && s.agg.leaves == agg.leaves - Min(agg.leaves, Total(r))
            && Line(SeenLevels(s.levels)) == Unserved(Min(agg.leaves, Total(r)), line)
            && Merged(s.fills) == Served(agg.leaves, r)
  {
    forall l | l in levels ensures l.queue != [] { assert LevelOk(agg.side.Opposite(), l, active); }
    SweepLevelsSeen(agg, levels, false);
    SeenSideOk(agg.side.Opposite(), levels, active);
    DrainLevelsServes(agg.leaves, agg.side, BoundOf(agg), SeenLevels(levels));
  }

  // ----- price-time priority of the trades -----

  predicate InOrder(side: Side, line: seq<SimpleOrder>) {
    forall i, j | 0 <= i < j < |line| :: line[i].price == line[j].price || Better(side, line[i].price, line[j].price)
  }

  lemma {:induction false} LineInOrder(side: Side, levels: seq<SimpleLevel>)
    requires SimpleSideOk(side, levels)
    ensures InOrder(side, Line(levels))
    ensures forall o | o in Line(levels) :: 0 < o.qty && exists l | l in levels :: o.price == l.price
    decreases |levels|
  {
    if levels != [] {
      assert levels[0] in levels;
      LineInOrder(side, levels[1..]);
      var q, tail := levels[0].queue, Line(levels[1..]);
      var line := Line(levels);
      forall i, j | 0 <= i < j < |line|
        ensures line[i].price == line[j].price || Better(side, line[i].price, line[j].price)
      {
        if i < |q| {
          assert q[i] in q;
          if |q| <= j {
            assert tail[j - |q|] in tail;
            var l :| l in levels[1..] && tail[j - |q|].price == l.price;
          } else {
            assert q[j] in q;
          }
        } else {
          assert line[i] == tail[i - |q|] && line[j] == tail[j - |q|];
        }
      }
    }
  }

  lemma {:induction false} ReachableInOrder(side: Side, bound: Bound, line: seq<SimpleOrder>, opp: Side)
    requires InOrder(opp, line)
    ensures InOrder(opp, Reachable(side, bound, line))
    ensures forall o | o in Reachable(side, bound, line) :: o in line && Within(side, bound, o.price)
  {
    if line != [] {
      ReachableInOrder(side, bound, line[1..], opp);
      var r := Reachable(side, bound, line[1..]);
      forall j | 0 <= j < |r| ensures line[0].price == r[j].price || Better(opp, line[0].price, r[j].price) {
        assert r[j] in r;
        var k :| 0 <= k < |line[1..]| && line[1..][k] == r[j];
        assert line[k + 1] == r[j];
      }
    }
  }

  lemma {:induction false} ServedInOrder(side: Side, qty: nat, line: seq<SimpleOrder>)
    requires InOrder(side, line) && forall o | o in line :: 0 < o.qty
    ensures var m := Served(qty, line);
            && |m| <= |line|
            && (forall i | 0 <= i < |m| :: m[i].id == line[i].id && m[i].price == line[i].price)
            && (forall i | 0 <= i < |m| - 1 :: m[i].done && m[i].qty == line[i].qty)
  {
    var m := Served(qty, line);
    if line != [] {
      ServedShares(qty, line, 0);
    }
    forall i | 0 <= i < |m|
      ensures m[i].id == line[i].id && m[i].price == line[i].price
      ensures i < |m| - 1 ==> m[i].done && m[i].qty == line[i].qty
    {
      ServedShares(qty, line, i);
      if i < |m| - 1 {
        ServedShares(qty, line, i + 1);
        assert line[..i + 1] == line[..i] + [line[i]];
        TotalConcat(line[..i], [line[i]]);
      }
    }
  }

  /**
    The trades of one aggressor against a clean side, lots counted together: they go down the reachable line order
    by order, at each order's own price; all but the last finish their order; prices only get worse; and every
    price satisfies the aggressor.
   */
  lemma {:induction false} PriceTimePriority(agg: OrderState, levels: seq<Level>, active: map<nat, Ref>)
    requires SideOk(agg.side.Opposite(), levels, active) && CleanLevels(levels) && Trading(agg)
    ensures var m := Merged(SweepLevels(agg, levels).fills);
            var r := Reachable(agg.side, BoundOf(agg), Line(SeenLevels(levels)));
            && |m| <= |r|
            && (forall i | 0 <= i < |m| :: m[i].id == r[i].id && m[i].price == r[i].price && Reaches(agg, m[i].price))
            && (forall i | 0 <= i < |m| - 1 :: m[i].done && m[i].qty == r[i].qty)
            && (forall i, j | 0 <= i < j < |m| ::
                  m[i].price == m[j].price || Better(agg.side.Opposite(), m[i].price, m[j].price))
  {
    var opp, seen := agg.side.Opposite(), SeenLevels(levels);
    var r := Reachable(agg.side, BoundOf(agg), Line(seen));
    GreedyFill(agg, levels, active);
    SeenSideOk(opp, levels, active);
    LineInOrder(opp, seen);
    ReachableInOrder(agg.side, BoundOf(agg), Line(seen), opp);
    ServedInOrder(opp, agg.leaves, r);
    forall i | 0 <= i < |r| ensures Reaches(agg, r[i].price) { assert r[i] in r; }
  }
}
