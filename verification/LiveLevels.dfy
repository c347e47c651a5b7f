/** Queues and levels of shared Order objects, and the values they show. */
module LiveLevels {
  import opened Orders
  import opened BookSpec
  import opened LiveOrder

  datatype LiveLevel = LiveLevel(price: int, queue: seq<Order>)

  /** A snapshot of the mutable part of the heap: the value each object holds. */
  type Snapshot = map<Order, OrderState>

  ghost function Look(shown: Snapshot, o: Order): OrderState {
    if o in shown then shown[o] else PlainOrder(o.id, o.timestamp, o.side, o.kind, o.price, o.quantity)
  }

  /** The snapshot agrees with the constants of the objects. */
  ghost predicate Labelled(shown: Snapshot) {
    forall o | o in shown ::
      shown[o].id == o.id && shown[o].side == o.side && shown[o].kind == o.kind && shown[o].price == o.price
  }

  ghost function Seen(queue: seq<Order>, shown: Snapshot): (s: seq<OrderState>)
    ensures |s| == |queue|
  {
    seq(|queue|, i requires 0 <= i < |queue| => Look(shown, queue[i]))
  }

  ghost function LevelsSeen(levels: seq<LiveLevel>, shown: Snapshot): (s: seq<Level>)
    ensures |s| == |levels|
  {
    seq(|levels|, i requires 0 <= i < |levels| => Level(levels[i].price, Seen(levels[i].queue, shown)))
  }

  /** What `active_` is used for: only unchanging fields of the objects in it. */
  ghost function Refs(active: map<nat, Order>): map<nat, Ref> {
    map id | id in active :: Ref(active[id].side, active[id].kind, active[id].price)
  }

  ghost function Members(levels: seq<LiveLevel>): set<Order> {
    set i, o | 0 <= i < |levels| && o in levels[i].queue :: o
  }

  ghost function Objects(queue: seq<Order>): set<Order> {
    set o | o in queue
  }

  ghost predicate Distinct(queue: seq<Order>) {
    forall i, j | 0 <= i < j < |queue| :: queue[i] != queue[j]
  }

  /** The levels of one side: in price order, each object once, in the level of its own side and price. */
  ghost predicate Sited(side: Side, levels: seq<LiveLevel>) {
    && (forall i, j | 0 <= i < j < |levels| :: Better(side, levels[i].price, levels[j].price))
    && (forall i | 0 <= i < |levels| :: SitedLevel(side, levels[i]))
  }

  ghost predicate SitedLevel(side: Side, l: LiveLevel) {
    Distinct(l.queue) && forall o | o in Objects(l.queue) :: o.side == side && o.price == l.price
  }

  ghost function AllPlaced(bids: seq<LiveLevel>, asks: seq<LiveLevel>, active: map<nat, Order>,
                           pending: seq<Order>, triggered: seq<Order>): set<Order> {
    Members(bids) + Members(asks) + Objects(pending) + Objects(triggered) + active.Values
  }

  /** Each object is in one place at most; only the index shares objects, and only with the levels. */
  ghost predicate WellPlaced(bids: seq<LiveLevel>, asks: seq<LiveLevel>, active: map<nat, Order>,
                             pending: seq<Order>, triggered: seq<Order>) {
    && Sited(Buy, bids) && Sited(Sell, asks)
    && Distinct(pending) && Distinct(triggered) && Objects(pending) !! Objects(triggered)
    && (Objects(pending) + Objects(triggered)) !! (Members(bids) + Members(asks) + active.Values)
    && forall id | id in active :: active[id].id == id
  }

  /** No two of the objects have the same id. */
  ghost predicate Unique(s: set<Order>) {
    forall o, p | o in s && p in s && o.id == p.id :: o == p
  }

  ghost predicate FreeId(s: set<Order>, id: nat) {
    forall o | o in s :: o.id != id
  }

  /** The index gives back each of these objects, the object itself, under its id. */
  ghost predicate Lists(active: map<nat, Order>, s: set<Order>) {
    Unique(s) && forall o | o in s :: o.id in active && active[o.id] == o
  }

  lemma ListsFewer(active: map<nat, Order>, s: set<Order>, t: set<Order>)
    requires Lists(active, s) && t <= s
    ensures Lists(active, t)
  {
  }

  lemma ListsWithout(active: map<nat, Order>, s: set<Order>, t: set<Order>, x: Order)
    requires Lists(active, s) && x in s && t <= s - {x}
    ensures Lists(active - {x.id}, t)
  {
  }

  lemma ListsMore(active: map<nat, Order>, s: set<Order>, t: set<Order>, x: Order)
    requires Lists(active, s) && FreeId(s, x.id) && t <= s + {x}
    ensures Lists(active[x.id := x], t)
  {
  }

  lemma ListsErased(active: map<nat, Order>, s: set<Order>, t: set<Order>, id: nat)
    requires Lists(active, s) && id in active && t <= s - {active[id]}
    ensures Lists(active - {id}, t) && FreeId(t, id)
  {
  }

  lemma UniqueFewer(s: set<Order>, t: set<Order>)
    requires Unique(s) && t <= s
    ensures Unique(t)
  {
  }

  ghost function IdsIn(s: set<Order>): set<nat> {
    set o | o in s :: o.id
  }

  lemma UniqueMore(s: set<Order>, t: set<Order>, x: Order)
    requires Unique(s) && FreeId(s, x.id) && t <= s + {x}
    ensures Unique(t) && IdsIn(t) <= IdsIn(s) + {x.id}
  {
  }

  lemma UniqueFree(s: set<Order>, t: set<Order>, x: Order)
    requires Unique(s) && t <= s && x in s && x !in t
    ensures FreeId(t, x.id)
  {
  }

  /** Every level lies behind the price `p`. */
  ghost predicate Beyond(side: Side, p: int, levels: seq<LiveLevel>) {
    forall l | l in levels :: Better(side, p, l.price)
  }

  // ----- an update of one object is seen where the object is, and nowhere else -----

  lemma SeenElsewhere(queue: seq<Order>, shown: Snapshot, x: Order, s: OrderState)
    requires x !in queue
    ensures Seen(queue, shown[x := s]) == Seen(queue, shown)
  {
  }

  lemma LevelsSeenElsewhere(levels: seq<LiveLevel>, shown: Snapshot, x: Order, s: OrderState)
    requires x !in Members(levels)
    ensures LevelsSeen(levels, shown[x := s]) == LevelsSeen(levels, shown)
  {
    forall i | 0 <= i < |levels| ensures Seen(levels[i].queue, shown[x := s]) == Seen(levels[i].queue, shown) {
      SeenElsewhere(levels[i].queue, shown, x, s);
    }
  }

  lemma SeenTail(queue: seq<Order>, shown: Snapshot)
    requires queue != []
    ensures Seen(queue, shown) == [Look(shown, queue[0])] + Seen(queue[1..], shown)
  {
  }

  lemma SeenOne(o: Order, shown: Snapshot)
    ensures Seen([o], shown) == [Look(shown, o)]
  {
  }

  lemma SeenConcat(a: seq<Order>, b: seq<Order>, shown: Snapshot)
    ensures Seen(a + b, shown) == Seen(a, shown) + Seen(b, shown)
  {
  }

  lemma Split(queue: seq<Order>, i: nat)
    requires i < |queue|
    ensures queue == queue[..i] + [queue[i]] + queue[i + 1..]
  {
  }

  lemma SeenSplit(queue: seq<Order>, i: nat, shown: Snapshot)
    requires i < |queue|
    ensures Seen(queue[..i], shown) == Seen(queue, shown)[..i]
        && Seen(queue[i + 1..], shown) == Seen(queue, shown)[i + 1..]
  {
  }

  /** Moving one object from the middle of a sequence to the end of another keeps both duplicate-free and apart. */
  lemma MoveStop(kept: seq<Order>, x: Order, rest: seq<Order>, fired: seq<Order>)
    requires Distinct(kept + [x] + rest) && Distinct(fired) && Objects(kept + [x] + rest) !! Objects(fired)
    ensures Distinct(kept + rest) && Distinct(fired + [x]) && Objects(kept + rest) !! Objects(fired + [x])
    ensures Objects(kept + rest) + {x} == Objects(kept + [x] + rest) && Objects(fired + [x]) == Objects(fired) + {x}
    ensures x !in kept + rest && x !in fired
  {
    var all := kept + [x] + rest;
    assert all[|kept|] == x && x in Objects(all);
    forall i | 0 <= i < |kept + rest| ensures (kept + rest)[i] == all[if i < |kept| then i else i + 1] {
    }
    assert x !in kept + rest && Distinct(kept + rest);
    assert Objects(kept + rest) <= Objects(all);
    forall o | o in Objects(all) && o != x ensures o in Objects(kept + rest) {
      var i :| 0 <= i < |all| && all[i] == o;
      assert (kept + rest)[if i < |kept| then i else i - 1] == o;
    }
  }

  /** A new value for the front object of a side shows there and nowhere else on that side. */
  lemma FrontSeen(side: Side, levels: seq<LiveLevel>, shown: Snapshot, s: OrderState)
    requires Sited(side, levels) && levels != [] && levels[0].queue != []
    ensures var now, seen := shown[levels[0].queue[0] := s], LevelsSeen(levels, shown);
      LevelsSeen(levels, now) == [Level(seen[0].price, [s] + seen[0].queue[1..])] + seen[1..]
  {
    hide Sited, Members, LevelsSeen, Seen;
    var queue, rest := levels[0].queue, levels[1..];
    var x, now := queue[0], shown[queue[0] := s];
    SitedTail(side, levels);
    LevelsSeenTail(levels, shown);
    LevelsSeenTail(levels, now);
    SeenTail(queue, shown);
    SeenTail(queue, now);
    assert x in Objects(queue) && x !in queue[1..];
    SeenElsewhere(queue[1..], shown, x, s);
    LevelsSeenElsewhere(rest, shown, x, s);
    assert Seen(queue, shown)[1..] == Seen(queue[1..], shown);
    assert LevelsSeen(levels, shown)[1..] == LevelsSeen(rest, shown);
  }

  lemma SidesApart(bids: seq<LiveLevel>, asks: seq<LiveLevel>)
    requires Sited(Buy, bids) && Sited(Sell, asks)
    ensures Members(bids) !! Members(asks)
  {
    assert forall o | o in Members(bids) :: o.side == Buy;
  }

  /** The levels after the front object has left. */
  function PopFront(levels: seq<LiveLevel>): seq<LiveLevel>
    requires levels != [] && levels[0].queue != []
  {
    [LiveLevel(levels[0].price, levels[0].queue[1..])] + levels[1..]
  }

  lemma PopFrontOk(side: Side, levels: seq<LiveLevel>, shown: Snapshot)
    requires Sited(side, levels) && levels != [] && levels[0].queue != []
    ensures Sited(side, PopFront(levels))
    ensures levels[0].queue[0] in Members(levels) && Members(PopFront(levels)) <= Members(levels) - {levels[0].queue[0]}
    ensures var seen := LevelsSeen(levels, shown);
      LevelsSeen(PopFront(levels), shown) == [Level(seen[0].price, seen[0].queue[1..])] + seen[1..]
  {
    hide Sited, Members, LevelsSeen, Seen;
    var queue, rest, r := levels[0].queue, levels[1..], PopFront(levels);
    SitedTail(side, levels);
    SitedCons(side, r[0], rest);
    assert r[1..] == rest;
    MembersTail(levels);
    MembersTail(r);
    LevelsSeenTail(levels, shown);
    LevelsSeenTail(r, shown);
    SeenTail(queue, shown);
    assert queue[0] in Objects(queue) && Objects(queue[1..]) <= Objects(queue) - {queue[0]};
    assert Seen(queue, shown)[1..] == Seen(queue[1..], shown);
    assert LevelsSeen(levels, shown)[1..] == LevelsSeen(rest, shown);
  }

  lemma FirePlaces(bids: seq<LiveLevel>, asks: seq<LiveLevel>, active: map<nat, Order>,
                   pending: seq<Order>, triggered: seq<Order>, i: nat)
    requires WellPlaced(bids, asks, active, pending, triggered) && i < |pending|
    ensures var kept, fired := pending[..i] + pending[i + 1..], triggered + [pending[i]];
      && WellPlaced(bids, asks, active, kept, fired)
      && AllPlaced(bids, asks, active, kept, fired) == AllPlaced(bids, asks, active, pending, triggered)
      && Objects(kept) <= Objects(pending)
  {
    hide Sited, Members, Distinct;
    Split(pending, i);
    MoveStop(pending[..i], pending[i], pending[i + 1..], triggered);
  }

  lemma LevelsSeenTail(levels: seq<LiveLevel>, shown: Snapshot)
    requires levels != []
    ensures LevelsSeen(levels, shown)
         == [Level(levels[0].price, Seen(levels[0].queue, shown))] + LevelsSeen(levels[1..], shown)
  {
  }

  lemma MembersTail(levels: seq<LiveLevel>)
    requires levels != []
    ensures Members(levels) == Objects(levels[0].queue) + Members(levels[1..])
  {
    forall o | o in Members(levels) ensures o in Objects(levels[0].queue) + Members(levels[1..]) {
      var i :| 0 <= i < |levels| && o in levels[i].queue;
      if i > 0 { assert levels[1..][i - 1] == levels[i]; }
    }
    forall o | o in Members(levels[1..]) ensures o in Members(levels) {
      var i :| 0 <= i < |levels[1..]| && o in levels[1..][i].queue;
      assert levels[i + 1] == levels[1..][i];
    }
  }

  lemma SitedTail(side: Side, levels: seq<LiveLevel>)
    requires Sited(side, levels) && levels != []
    ensures Sited(side, levels[1..]) && SitedLevel(side, levels[0])
    ensures Beyond(side, levels[0].price, levels[1..])
    ensures Objects(levels[0].queue) !! Members(levels[1..])
  {
  }

  lemma SitedCons(side: Side, l: LiveLevel, rest: seq<LiveLevel>)
    requires Sited(side, rest) && SitedLevel(side, l) && Beyond(side, l.price, rest)
    ensures Sited(side, [l] + rest)
  {
  }

  lemma BeyondMembers(side: Side, p: int, id: nat, levels: seq<LiveLevel>)
    requires Sited(side, levels) && Beyond(side, p, levels)
    ensures Others(Members(levels), p, id) == Members(levels)
  {
  }

  lemma OthersUnion(s: set<Order>, t: set<Order>, price: int, id: nat)
    ensures Others(s + t, price, id) == Others(s, price, id) + Others(t, price, id)
  {
  }

  lemma {:induction false} OthersHere(side: Side, l: LiveLevel, id: nat)
    requires SitedLevel(side, l)
    ensures Others(Objects(l.queue), l.price, id) == Objects(WithoutId(l.queue, id))
    ensures SitedLevel(side, LiveLevel(l.price, WithoutId(l.queue, id)))
  {
    WithoutIdOk(l.queue, id, map[]);
  }

  lemma OthersElsewhere(side: Side, l: LiveLevel, price: int, id: nat)
    requires SitedLevel(side, l) && l.price != price
    ensures Others(Objects(l.queue), price, id) == Objects(l.queue)
  {
  }

  lemma SeenEmpty(shown: Snapshot)
    ensures Seen([], shown) == []
  {
  }

  // ----- std::map::operator[] and push_back, on objects -----

  function Insert(levels: seq<LiveLevel>, o: Order): seq<LiveLevel> {
    if levels == [] || Better(o.side, o.price, levels[0].price) then [LiveLevel(o.price, [o])] + levels
    else if levels[0].price == o.price then [LiveLevel(o.price, levels[0].queue + [o])] + levels[1..]
    else [levels[0]] + Insert(levels[1..], o)
  }

  /** On a sited side the insertion keeps the siting, adds one object and shows as AddOrder. */
  lemma {:induction false} InsertOk(levels: seq<LiveLevel>, o: Order, shown: Snapshot)
    requires Sited(o.side, levels) && o !in Members(levels) && Labelled(shown)
    ensures Sited(o.side, Insert(levels, o)) && Members(Insert(levels, o)) == Members(levels) + {o}
    ensures LevelsSeen(Insert(levels, o), shown) == AddOrder(o.side, LevelsSeen(levels, shown), Look(shown, o))
    ensures forall p :: Beyond(o.side, p, levels) && Better(o.side, p, o.price) ==> Beyond(o.side, p, Insert(levels, o))
  {
    assert Look(shown, o).price == o.price;
    SeenOne(o, shown);
    hide Sited, Members, LevelsSeen, Seen, Labelled;
    var r := Insert(levels, o);
    LevelsSeenTail(r, shown);
    MembersTail(r);
    if levels == [] || Better(o.side, o.price, levels[0].price) {
      assert r[1..] == levels && Objects([o]) == {o};
      assert Beyond(o.side, o.price, levels) by { if levels != [] { SitedTail(o.side, levels); } }
      if levels != [] { LevelsSeenTail(levels, shown); }
      SitedCons(o.side, r[0], levels);
    } else {
      LevelsSeenTail(levels, shown);
      MembersTail(levels);
      SitedTail(o.side, levels);
      if levels[0].price == o.price {
        SeenConcat(levels[0].queue, [o], shown);
        assert r[1..] == levels[1..];
        SitedCons(o.side, r[0], levels[1..]);
      } else {
        InsertOk(levels[1..], o, shown);
        assert r[1..] == Insert(levels[1..], o);
        SitedCons(o.side, r[0], r[1..]);
      }
    }
  }

  // ----- the erasure of cancelLocked, on objects -----

  function WithoutId(queue: seq<Order>, id: nat): seq<Order> {
    if queue == [] then []
    else (if queue[0].id == id then [] else [queue[0]]) + WithoutId(queue[1..], id)
  }

  function Erase(levels: seq<LiveLevel>, price: int, id: nat): seq<LiveLevel> {
    if levels == [] then []
    else if levels[0].price == price then
      var q := WithoutId(levels[0].queue, id);
      if q == [] then levels[1..] else [LiveLevel(price, q)] + levels[1..]
    else [levels[0]] + Erase(levels[1..], price, id)
  }

  ghost function OtherIds(s: set<Order>, id: nat): set<Order> {
    set o | o in s && o.id != id
  }

  /** All but the objects of the given id at the given price. */
  ghost function Others(s: set<Order>, price: int, id: nat): set<Order> {
    set o | o in s && !(o.id == id && o.price == price)
  }

  lemma DistinctCons(x: Order, queue: seq<Order>)
    requires Distinct(queue) && x !in Objects(queue)
    ensures Distinct([x] + queue)
  {
  }

  lemma {:induction false} WithoutIdOk(queue: seq<Order>, id: nat, shown: Snapshot)
    requires Labelled(shown)
    ensures Seen(WithoutId(queue, id), shown) == Without(Seen(queue, shown), id)
    ensures Objects(WithoutId(queue, id)) == OtherIds(Objects(queue), id)
    ensures Distinct(queue) ==> Distinct(WithoutId(queue, id))
  {
    if queue != [] {
      WithoutIdOk(queue[1..], id, shown);
      SeenTail(queue, shown);
      var front := if queue[0].id == id then [] else [queue[0]];
      SeenConcat(front, WithoutId(queue[1..], id), shown);
      assert Objects(queue) == {queue[0]} + Objects(queue[1..]);
      assert Objects(WithoutId(queue, id)) == Objects(front) + Objects(WithoutId(queue[1..], id));
      assert Seen(front, shown) == if queue[0].id == id then [] else [Look(shown, queue[0])];
      assert Seen(queue, shown)[1..] == Seen(queue[1..], shown);
      assert Look(shown, queue[0]).id == queue[0].id;
      if Distinct(queue) {
        assert forall i | 0 <= i < |queue[1..]| :: queue[1..][i] == queue[i + 1];
        assert Distinct(queue[1..]) && queue[0] !in Objects(queue[1..]);
        if queue[0].id != id { DistinctCons(queue[0], WithoutId(queue[1..], id)); }
      }
    }
  }

  /** The level that holds the id: its queue without the id, or no level at all. */
  lemma {:induction false} EraseFirst(side: Side, levels: seq<LiveLevel>, id: nat, shown: Snapshot)
    requires Sited(side, levels) && Labelled(shown) && levels != []
    ensures var price := levels[0].price; var r := Erase(levels, price, id);
      && Sited(side, r)
      && LevelsSeen(r, shown) == RemoveOrder(LevelsSeen(levels, shown), price, id)
      && Members(r) == Others(Members(levels), price, id)
  {
    hide Sited, Members, LevelsSeen, Seen, Labelled, Distinct;
    var price := levels[0].price;
    var r, rest, q := Erase(levels, price, id), levels[1..], WithoutId(levels[0].queue, id);
    LevelsSeenTail(levels, shown);
    MembersTail(levels);
    SitedTail(side, levels);
    WithoutIdOk(levels[0].queue, id, shown);
    BeyondMembers(side, price, id, rest);
    OthersHere(side, levels[0], id);
    OthersUnion(Objects(levels[0].queue), Members(rest), price, id);
    assert LevelsSeen(levels, shown)[1..] == LevelsSeen(rest, shown);
    if q == [] {
      SeenEmpty(shown);
      assert Objects(q) == {};
    } else {
      LevelsSeenTail(r, shown);
      MembersTail(r);
      assert r[1..] == rest;
      SitedCons(side, LiveLevel(price, q), rest);
    }
  }

  /** Erasing an id removes exactly the objects with that id and price, and shows as RemoveOrder. */
  lemma {:induction false} EraseOk(side: Side, levels: seq<LiveLevel>, price: int, id: nat, shown: Snapshot)
    requires Sited(side, levels) && Labelled(shown)
    ensures Sited(side, Erase(levels, price, id))
    ensures LevelsSeen(Erase(levels, price, id), shown) == RemoveOrder(LevelsSeen(levels, shown), price, id)
    ensures Members(Erase(levels, price, id)) == Others(Members(levels), price, id)
    ensures forall p :: Beyond(side, p, levels) ==> Beyond(side, p, Erase(levels, price, id))
  {
    if levels != [] {
      hide Sited, Members, LevelsSeen, Seen, Labelled, Distinct, SitedLevel;
      var r, rest := Erase(levels, price, id), levels[1..];
      if levels[0].price == price {
        EraseFirst(side, levels, id, shown);
      } else {
        LevelsSeenTail(levels, shown);
        MembersTail(levels);
        SitedTail(side, levels);
        OthersUnion(Objects(levels[0].queue), Members(rest), price, id);
        EraseOk(side, rest, price, id, shown);
        LevelsSeenTail(r, shown);
        MembersTail(r);
        OthersElsewhere(side, levels[0], price, id);
        assert r[1..] == Erase(rest, price, id);
        SitedCons(side, r[0], r[1..]);
      }
    }
  }

  /** addToBook keeps every object in one place. */
  lemma {:induction false} InsertPlaces(bids: seq<LiveLevel>, asks: seq<LiveLevel>, active: map<nat, Order>,
                     pending: seq<Order>, triggered: seq<Order>, o: Order, shown: Snapshot)
    requires WellPlaced(bids, asks, active, pending, triggered) && Labelled(shown)
    requires o !in AllPlaced(bids, asks, active, pending, triggered)
    ensures var bids1 := if o.side.Buy? then Insert(bids, o) else bids;
      var asks1 := if o.side.Buy? then asks else Insert(asks, o);
      && WellPlaced(bids1, asks1, active[o.id := o], pending, triggered)
      && AllPlaced(bids1, asks1, active[o.id := o], pending, triggered)
            <= AllPlaced(bids, asks, active, pending, triggered) + {o}
  {
    hide Sited, Members, Distinct, Insert, LevelsSeen, Seen, Labelled;
    InsertOk(if o.side.Buy? then bids else asks, o, shown);
    assert active[o.id := o].Values <= active.Values + {o};
  }

  lemma RefsAdd(active: map<nat, Order>, o: Order)
    ensures Refs(active[o.id := o]) == Refs(active)[o.id := Ref(o.side, o.kind, o.price)]
  {
  }

  lemma SidesSited(bids: seq<LiveLevel>, asks: seq<LiveLevel>, active: map<nat, Order>, pending: seq<Order>,
                   triggered: seq<Order>)
    requires WellPlaced(bids, asks, active, pending, triggered)
    ensures Sited(Buy, bids) && Sited(Sell, asks)
  {
  }

  /** Taking objects out of a side keeps the others where they are. */
  lemma ShrinkPlaces(bids: seq<LiveLevel>, asks: seq<LiveLevel>, active: map<nat, Order>, pending: seq<Order>,
                     triggered: seq<Order>, side: Side, levels: seq<LiveLevel>)
    requires WellPlaced(bids, asks, active, pending, triggered)
    requires Sited(side, levels) && Members(levels) <= Members(if side.Buy? then bids else asks)
    ensures var bids1, asks1 := if side.Buy? then levels else bids, if side.Buy? then asks else levels;
      && WellPlaced(bids1, asks1, active, pending, triggered)
      && AllPlaced(bids1, asks1, active, pending, triggered) <= AllPlaced(bids, asks, active, pending, triggered)
  {
    hide Sited, Members, Distinct;
  }

  lemma RefsRemove(active: map<nat, Order>, id: nat)
    ensures Refs(active - {id}) == Refs(active) - {id}
  {
  }

  /** A new stop joins the pending ones. */
  lemma HoldPlaces(bids: seq<LiveLevel>, asks: seq<LiveLevel>, active: map<nat, Order>,
                   pending: seq<Order>, triggered: seq<Order>, o: Order)
    requires WellPlaced(bids, asks, active, pending, triggered)
    requires o !in AllPlaced(bids, asks, active, pending, triggered)
    ensures WellPlaced(bids, asks, active, pending + [o], triggered)
    ensures AllPlaced(bids, asks, active, pending + [o], triggered)
         == AllPlaced(bids, asks, active, pending, triggered) + {o}
  {
    hide Sited, Members;
    assert Objects(pending + [o]) == Objects(pending) + {o};
    assert o !in Objects(pending);
  }

  /** The staged stops leave the book as one batch. */
  lemma TakePlaces(bids: seq<LiveLevel>, asks: seq<LiveLevel>, active: map<nat, Order>,
                   pending: seq<Order>, triggered: seq<Order>)
    requires WellPlaced(bids, asks, active, pending, triggered)
    ensures WellPlaced(bids, asks, active, pending, []) && Distinct(triggered)
    ensures Objects(triggered) !! AllPlaced(bids, asks, active, pending, [])
    ensures Objects(triggered) + AllPlaced(bids, asks, active, pending, [])
        == AllPlaced(bids, asks, active, pending, triggered)
  {
    hide Sited, Members;
    assert Objects([]) == {};
  }

  /** cancelLocked leaves the cancelled object in no place at all. */
  lemma {:induction false} ErasePlaces(bids: seq<LiveLevel>, asks: seq<LiveLevel>, active: map<nat, Order>,
                    pending: seq<Order>, triggered: seq<Order>, id: nat, shown: Snapshot)
    requires WellPlaced(bids, asks, active, pending, triggered) && Labelled(shown) && id in active
    ensures var o := active[id];
      var bids1 := if o.side.Buy? then Erase(bids, o.price, id) else bids;
      var asks1 := if o.side.Buy? then asks else Erase(asks, o.price, id);
      && WellPlaced(bids1, asks1, active - {id}, pending, triggered)
      && AllPlaced(bids1, asks1, active - {id}, pending, triggered)
            <= AllPlaced(bids, asks, active, pending, triggered) - {o}
  {
    hide Sited, Members, Distinct, Erase, LevelsSeen, Seen, Labelled;
    var o := active[id];
    assert o in active.Values && o.id == id;
    EraseOk(o.side, if o.side.Buy? then bids else asks, o.price, id, shown);
    OnOneSide(bids, asks, o);
    assert (active - {id}).Values <= active.Values - {o};
  }

  lemma OnOneSide(bids: seq<LiveLevel>, asks: seq<LiveLevel>, o: Order)
    requires Sited(Buy, bids) && Sited(Sell, asks)
    ensures o !in Members(if o.side.Buy? then asks else bids)
  {
  }

  /** Between the two snapshots only the touched objects changed. */
  ghost predicate Steady(s1: Snapshot, s2: Snapshot, touched: set<Order>) {
    forall o | o in s1 && o !in touched :: o in s2 && s1[o] == s2[o]
  }

  lemma SeenKept(queue: seq<Order>, s1: Snapshot, s2: Snapshot, touched: set<Order>)
    requires Steady(s1, s2, touched) && Objects(queue) <= s1.Keys && Objects(queue) !! touched
    ensures Seen(queue, s1) == Seen(queue, s2)
  {
    assert forall o | o in queue :: o in Objects(queue);
  }

  lemma BatchFront(batch: seq<Order>)
    requires Distinct(batch) && batch != []
    ensures Distinct(batch[1..]) && Objects(batch) == {batch[0]} + Objects(batch[1..])
        && batch[0] !in Objects(batch[1..])
  {
  }
}
