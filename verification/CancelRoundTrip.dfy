/** Cancel and modify touch only the named order: everyone else keeps the place it has, and a cancel undoes a submit. */
module CancelRoundTrip {
  import opened Orders
  import opened BookSpec
  import opened BookInvariants
  import opened UncrossedBook

  /** The orders of one side from the first to be served to the last. */
  function Ranked(levels: seq<Level>): seq<OrderState> {
    if levels == [] then [] else levels[0].queue + Ranked(levels[1..])
  }

  lemma {:induction false} RankedCons(l: Level, rest: seq<Level>)
    ensures Ranked([l] + rest) == l.queue + Ranked(rest)
  {
    assert ([l] + rest)[1..] == rest;
  }

  lemma {:induction false} WithoutConcat(a: seq<OrderState>, b: seq<OrderState>, id: nat)
    ensures Without(a + b, id) == Without(a, id) + Without(b, id)
  {
    if a == [] {
      assert a + b == b;
    } else {
      assert (a + b)[1..] == a[1..] + b;
      WithoutConcat(a[1..], b, id);
    }
  }

  lemma {:induction false} WithoutAbsent(queue: seq<OrderState>, id: nat)
    requires id !in IdsOf(queue)
    ensures Without(queue, id) == queue
  {
    if queue != [] {
      assert queue[0] in queue && forall o | o in queue[1..] :: o in queue;
      WithoutAbsent(queue[1..], id);
    }
  }

  lemma {:induction false} RankedIds(levels: seq<Level>)
    ensures IdsOf(Ranked(levels)) == LevelIds(levels)
  {
    if levels != [] {
      RankedIds(levels[1..]);
      IdsConcat(levels[0].queue, Ranked(levels[1..]));
    }
  }

  // ----- cancel -----

  lemma {:induction false} RemoveRanked(side: Side, levels: seq<Level>, id: nat, active: map<nat, Ref>)
    requires SideOk(side, levels, active) && id in active && active[id].side == side
    ensures Ranked(RemoveOrder(levels, active[id].price, id)) == Without(Ranked(levels), id)
    decreases |levels|
  {
    hide LevelOk, Sorted;
    if levels != [] {
      hide Without;
      var l, rest, price := levels[0], levels[1..], active[id].price;
      SideTail(side, levels, active);
      WithoutConcat(l.queue, Ranked(rest), id);
      if l.price == price {
        NotBehind(side, levels, id, active);
        RankedIds(rest);
        WithoutAbsent(Ranked(rest), id);
        RankedCons(Level(price, Without(l.queue, id)), rest);
        assert [] + Ranked(rest) == Ranked(rest);
      } else {
        NotHere(side, l, id, active);
        WithoutAbsent(l.queue, id);
        RemoveRanked(side, rest, id, active);
        RankedCons(l, RemoveOrder(rest, price, id));
      }
    }
  }

  lemma NotHere(side: Side, l: Level, id: nat, active: map<nat, Ref>)
    requires LevelOk(side, l, active) && id in active && active[id].price != l.price
    ensures id !in IdsOf(l.queue)
  {
  }

  lemma WithoutItself(o: OrderState)
    ensures Without([o], o.id) == []
  {
  }

  /** An id whose price is the best one is not on a worse level. */
  lemma NotBehind(side: Side, levels: seq<Level>, id: nat, active: map<nat, Ref>)
    requires SideOk(side, levels, active) && levels != [] && id in active && active[id].price == levels[0].price
    ensures id !in LevelIds(levels[1..])
  {
    forall l, o | l in levels[1..] && o in l.queue ensures o.id != id {
      var i :| 0 <= i < |levels[1..]| && levels[1..][i] == l;
      assert levels[i + 1] == l && LevelOk(side, levels[i + 1], active);
      assert Better(side, levels[0].price, levels[i + 1].price);
    }
  }

  /** Cancelling takes the named order out and leaves all others in their order, on both sides. */
  lemma {:induction false} CancelKeepsOthers(b: Book, id: nat, side: Side)
    requires Consistent(b)
    ensures Ranked(Cancel(b, id).On(side)) == Without(Ranked(b.On(side)), id)
    ensures Cancel(b, id).pending == b.pending && Cancel(b, id).trades == b.trades
  {
    hide LevelOk, Sorted;
    if id in b.active && b.active[id].side == side {
      RemoveRanked(side, b.On(side), id, b.active);
    } else {
      SidesApart(b, []);
      RankedIds(b.On(side));
      WithoutAbsent(Ranked(b.On(side)), id);
    }
  }

  // ----- modify -----

  lemma {:induction false} AddRanked(side: Side, levels: seq<Level>, o: OrderState)
    requires o.id !in LevelIds(levels)
    ensures Without(Ranked(AddOrder(side, levels, o)), o.id) == Ranked(levels)
    decreases |levels|
  {
    hide Without, IdsOf, LevelIds;
    WithoutItself(o);
    RankedIds(levels);
    WithoutAbsent(Ranked(levels), o.id);
    if levels == [] || Better(side, o.price, levels[0].price) {
      RankedCons(Level(o.price, [o]), levels);
      WithoutConcat([o], Ranked(levels), o.id);
    } else {
      var l, rest := levels[0], levels[1..];
      LevelIdsCons(levels);
      RankedIds(rest);
      WithoutAbsent(l.queue, o.id);
      WithoutAbsent(Ranked(rest), o.id);
      if l.price == o.price {
        RankedCons(Level(o.price, l.queue + [o]), rest);
        WithoutConcat(l.queue + [o], Ranked(rest), o.id);
        WithoutConcat(l.queue, [o], o.id);
        assert l.queue + [] == l.queue;
      } else {
        AddRanked(side, rest, o);
        RankedCons(l, AddOrder(side, rest, o));
        WithoutConcat(l.queue, Ranked(AddOrder(side, rest, o)), o.id);
      }
    }
  }

  lemma LevelIdsCons(levels: seq<Level>)
    requires levels != []
    ensures LevelIds(levels) == IdsOf(levels[0].queue) + LevelIds(levels[1..])
  {
    assert levels == [levels[0]] + levels[1..];
  }

  /** `o` stands last in the level of its price. */
  predicate StandsLast(levels: seq<Level>, o: OrderState) {
    exists l | l in levels :: l.price == o.price && l.queue != [] && l.queue[|l.queue| - 1] == o
  }

  lemma {:induction false} AddedLast(side: Side, levels: seq<Level>, o: OrderState)
    ensures StandsLast(AddOrder(side, levels, o), o)
    decreases |levels|
  {
    if levels == [] || Better(side, o.price, levels[0].price) {
      assert Level(o.price, [o]) in AddOrder(side, levels, o);
    } else if levels[0].price == o.price {
      assert Level(o.price, levels[0].queue + [o]) in AddOrder(side, levels, o);
    } else {
      AddedLast(side, levels[1..], o);
    }
  }

  /** The order stands last on the level of this price, with these leaves and this time. */
  predicate LastAt(levels: seq<Level>, price: int, id: nat, leaves: nat, timestamp: int) {
    exists l | l in levels :: l.price == price && l.queue != [] &&
      var o := l.queue[|l.queue| - 1]; o.id == id && o.leaves == leaves && o.timestamp == timestamp
  }

  lemma {:induction false} AddedLastAt(side: Side, levels: seq<Level>, o: OrderState)
    ensures LastAt(AddOrder(side, levels, o), o.price, o.id, o.leaves, o.timestamp)
  {
    AddedLast(side, levels, o);
    var l :| l in AddOrder(side, levels, o) && l.price == o.price && l.queue != [] && l.queue[|l.queue| - 1] == o;
  }

  /** A modify of a known id, in any book: the order stands last at the new price with the new quantity. */
  lemma {:induction false} ModifiedLast(b: Book, id: nat, p: int, q: nat, ts: int)
    requires id in b.active
    ensures LastAt(Modify(b, id, p, q, ts).On(b.active[id].side), p, id, q, ts)
    ensures Modify(b, id, p, q, ts).trades == b.trades
  {
    hide AddOrder, RemoveOrder, LastAt;
    var r := b.active[id];
    AddedLastAt(r.side, Cancel(b, id).On(r.side), PlainOrder(id, ts, r.side, r.kind, p, q));
  }

  /** Modifying moves the named order alone, to the end of the level of its new price. */
  lemma {:induction false} ModifyKeepsOthers(b: Book, id: nat, newPrice: int, newQty: nat, timestamp: int, side: Side)
    requires Consistent(b) && id in b.active
    ensures var r, ref := Modify(b, id, newPrice, newQty, timestamp), b.active[id];
      && Without(Ranked(r.On(side)), id) == Without(Ranked(b.On(side)), id)
      && (if side == ref.side then StandsLast(r.On(side), PlainOrder(id, timestamp, side, ref.kind, newPrice, newQty))
          else r.On(side) == b.On(side))
  {
    hide Consistent, Ranked, Without, StandsLast, AddOrder, Cancel;
    var c, ref := Cancel(b, id), b.active[id];
    var o := PlainOrder(id, timestamp, ref.side, ref.kind, newPrice, newQty);
    CancelLeaves(b, id);
    CancelKeepsOthers(b, id, ref.side);
    AddRanked(ref.side, c.On(ref.side), o);
    AddedLast(ref.side, c.On(ref.side), o);
  }

  lemma CancelLeaves(b: Book, id: nat)
    requires Consistent(b) && id in b.active
    ensures var side := b.active[id].side;
      id !in LevelIds(Cancel(b, id).On(side)) && Cancel(b, id).On(side.Opposite()) == b.On(side.Opposite())
  {
    hide LevelOk, Sorted, AllStopsOk, CleanLevels, LevelIds, RemoveOrder;
    CancelOk(b, id);
    SidesApart(Cancel(b, id), []);
  }

  // ----- a cancel undoes a submit -----

  lemma {:induction false} RemoveUndoesAdd(side: Side, levels: seq<Level>, o: OrderState)
    requires o.id !in LevelIds(levels) && forall l | l in levels :: l.queue != []
    ensures RemoveOrder(AddOrder(side, levels, o), o.price, o.id) == levels
    decreases |levels|
  {
    hide Without;
    var r := AddOrder(side, levels, o);
    WithoutItself(o);
    if levels == [] || Better(side, o.price, levels[0].price) {
      assert r[1..] == levels;
    } else {
      var l, rest := levels[0], levels[1..];
      assert l in levels && r[1..] == if l.price == o.price then rest else AddOrder(side, rest, o);
      assert o.id !in IdsOf(l.queue) && o.id !in LevelIds(rest);
      if l.price == o.price {
        WithoutConcat(l.queue, [o], o.id);
        WithoutAbsent(l.queue, o.id);
        assert l.queue + [] == l.queue && r[0] == Level(o.price, l.queue + [o]);
        assert [Level(l.price, l.queue)] + rest == levels;
      } else {
        RemoveUndoesAdd(side, rest, o);
        assert [l] + rest == levels;
      }
    }
  }

  /** Cancelling an order that did not trade on entry restores the book it was submitted to. */
  lemma CancelUndoesSubmit(b: Book, o: OrderState)
    requires Consistent(b) && Fresh(o) && Unused(b, [], o.id) && 0 < o.leaves
    requires !o.kind.Market? && !o.kind.StopLoss? && !Crosses(b, o.side, o.price)
    ensures Match(b, o) == AddToBook(b, o) && Cancel(Match(b, o), o.id) == b
  {
    hide Sorted, Sound;
    var opp := o.side.Opposite();
    assert SweepLevels(o, b.On(opp)) == SideSweep(o, b.On(opp), []);
    assert b.With(opp, b.On(opp)) == b;
    assert MatchOne(b, o) == AddToBook(b, o);
    assert b.triggered == [];
    RemoveUndoesAdd(o.side, b.On(o.side), o);
    var ref := Ref(o.side, o.kind, o.price);
    assert b.active[o.id := ref] - {o.id} == b.active;
  }
}
