/** The OrderBook class of include/orderbook.h and src/orderbook.cpp, on shared Order objects updated in place. */
module LiveBook {
  import opened Orders
  import opened BookSpec
  import opened LiveOrder
  import opened LiveLevels
  import opened MatchSteps

  class OrderBook {
    var bids: seq<LiveLevel>
    var asks: seq<LiveLevel>
    var active: map<nat, Order>
    var pending: seq<Order>
    var triggered: seq<Order>
    var trades: seq<Trade>
    var nextTradeId: nat

    /** The value held by every object ever handed to this book. */
    ghost var shown: Snapshot

    ghost function Placed(): set<Order>
      reads this
    {
      AllPlaced(bids, asks, active, pending, triggered)
    }

    ghost function Resting(): set<Order>
      reads this`bids, this`asks
    {
      Members(bids) + Members(asks)
    }

    /** Every resting object is the one its id stands for in the index. */
    ghost predicate Indexed()
      reads this`bids, this`asks, this`active
    {
      Lists(active, Resting())
    }

    lemma RestingPlaced()
      ensures Resting() <= Placed() && Objects(triggered) <= Placed()
    {
    }

    ghost predicate Placing()
      reads this
    {
      WellPlaced(bids, asks, active, pending, triggered) && Placed() <= shown.Keys
    }

    ghost predicate Faithful()
      reads this, shown.Keys
    {
      forall o | o in shown :: o.State() == shown[o]
    }

    ghost predicate Valid()
      reads this, shown.Keys
    {
      Placing() && Faithful()
    }

    /** The book as it would look if the objects held the given values. */
    ghost function Show(shown: Snapshot): Book
      reads this
    {
      Book(LevelsSeen(bids, shown), LevelsSeen(asks, shown), Refs(active), Seen(pending, shown), Seen(triggered, shown),
           trades, nextTradeId)
    }

    ghost function View(): Book
      reads this
    {
      Show(shown)
    }

    constructor ()
      ensures Valid() && View() == EmptyBook && shown == map[]
    {
      bids, asks, active, pending, triggered, trades, nextTradeId, shown := [], [], map[], [], [], [], 1, map[];
    }

    // ----- checkStopTriggers -----

    method CheckStopTriggers(last: int)
      requires Valid()
      modifies this`pending, this`triggered, this`shown, pending
      ensures Valid() && Placed() == old(Placed()) && shown.Keys == old(shown.Keys)
      ensures View() == CheckStops(old(View()), last)
      ensures Sifted(old(pending), pending, triggered, |pending|, last)
    {
      hide Sifted, Holds;
      hide WellPlaced, AllPlaced, Holding, Firing, CheckFrom, CheckStops, LevelsSeen, Seen;
      ghost var before := View();
      var i := 0;
      CheckFromStart(before, last);
      SiftedStart(pending, triggered, last);
      while i < |pending|
        invariant i <= |pending| && Valid() && Placed() == old(Placed()) && shown.Keys == old(shown.Keys)
        invariant Objects(pending) <= old(Objects(pending))
        invariant CheckFrom(View(), i, last) == CheckStops(before, last)
        invariant Sifted(old(pending), pending, triggered, i, last)
        decreases |pending| - i
      {
        var stop := pending[i];
        CheckFromNext(View(), i, last);
        StopShows(i);
        assert stop in Objects(pending);
        SiftedNext(old(pending), pending, triggered, i, last);
        if (stop.side.Sell? && last <= stop.triggerPrice) || (stop.side.Buy? && last >= stop.triggerPrice) {
          Fire(i);
        } else {
          i := i + 1;
        }
      }
      CheckFromEnd(View(), last);
    }

    lemma StopShows(i: nat)
      requires Valid() && i < |pending|
      ensures View().pending[i] == pending[i].State() && pending[i] in shown
    {
      assert pending[i] in Objects(pending) && pending[i] in Placed();
    }

    /** Triggers a pending stop and stages it for matching. */
    method Fire(i: nat)
      requires Valid() && i < |pending|
      modifies this`pending, this`triggered, this`shown, pending[i]
      ensures Valid() && Placed() == old(Placed()) && shown.Keys == old(shown.Keys)
      ensures Objects(pending) <= old(Objects(pending)) && |pending| == old(|pending|) - 1
      ensures View() == Fired(old(View()), i)
      ensures pending == old(pending[..i] + pending[i + 1..]) && triggered == old(triggered + [pending[i]])
    {
      hide WellPlaced, AllPlaced, LevelsSeen, Seen, Refs;
      var stop := pending[i];
      StopShows(i);
      ghost var s, now := TriggeredOrder(stop.State()), shown[stop := TriggeredOrder(stop.State())];
      FireShows(i, s);
      FirePlaces(bids, asks, active, pending, triggered, i);
      stop.Trigger();
      shown, triggered, pending := now, triggered + [stop], pending[..i] + pending[i + 1..];
    }

    lemma FireShows(i: nat, s: OrderState)
      requires Valid() && i < |pending|
      ensures var now := shown[pending[i] := s];
        && LevelsSeen(bids, now) == View().bids && LevelsSeen(asks, now) == View().asks
        && Seen(triggered + [pending[i]], now) == View().triggered + [s]
        && Seen(pending[..i] + pending[i + 1..], now) == View().pending[..i] + View().pending[i + 1..]
    {
      hide Sited, Members, LevelsSeen, Seen, Distinct, Refs;
      var stop, kept, rest := pending[i], pending[..i], pending[i + 1..];
      var now := shown[stop := s];
      StopShows(i);
      Split(pending, i);
      MoveStop(kept, stop, rest, triggered);
      LevelsSeenElsewhere(bids, shown, stop, s);
      LevelsSeenElsewhere(asks, shown, stop, s);
      SeenElsewhere(triggered, shown, stop, s);
      SeenElsewhere(kept + rest, shown, stop, s);
      SeenConcat(kept, rest, shown);
      SeenConcat(triggered, [stop], now);
      SeenOne(stop, now);
      SeenSplit(pending, i, shown);
    }

    // ----- one turn of the matching loop -----

    function Levels(side: Side): seq<LiveLevel>
      reads this
    {
      if side.Buy? then bids else asks
    }

    ghost predicate AtFront(side: Side, o: Order)
      reads this
    {
      Levels(side) != [] && Levels(side)[0].queue != [] && Levels(side)[0].queue[0] == o
    }

    /** A new value for an object that is not in the book does not show. */
    lemma AsideShows(o: Order, s: OrderState)
      requires Placing() && o !in Placed()
      ensures Show(shown[o := s]) == View() && o !in Objects(pending)
    {
      hide LevelsSeen, Seen, Members, WellPlaced;
      LevelsSeenElsewhere(bids, shown, o, s);
      LevelsSeenElsewhere(asks, shown, o, s);
      SeenElsewhere(pending, shown, o, s);
      SeenElsewhere(triggered, shown, o, s);
    }

    /** A new value for a front object shows at the front of its level. */
    lemma FrontShows(side: Side, o: Order, s: OrderState)
      requires Placing() && AtFront(side, o)
      ensures View().On(side) != [] && View().On(side)[0].queue != [] && View().On(side)[0].queue[0] == Look(shown, o)
      ensures Show(shown[o := s]) == WithQueue(View(), side, [s] + View().On(side)[0].queue[1..])
      ensures o in Placed() && o in shown && o !in Objects(pending)
    {
      var other := Levels(side.Opposite());
      SidesApart(bids, asks);
      MembersTail(Levels(side));
      assert o in Objects(Levels(side)[0].queue);
      FrontSeen(side, Levels(side), shown, s);
      LevelsSeenElsewhere(other, shown, o, s);
      assert o !in Objects(pending) && o !in Objects(triggered);
      SeenElsewhere(pending, shown, o, s);
      SeenElsewhere(triggered, shown, o, s);
    }

    /** The two fills of one turn. */
    method FillBoth(order: Order, resting: Order, qty: nat, ghost side: Side)
      requires Valid() && order in shown && order !in Placed() && AtFront(side, resting)
      modifies this`shown, order, resting
      ensures Valid() && Placed() == old(Placed()) && shown.Keys == old(shown.Keys)
      ensures order.State() == FilledBy(old(order.State()), qty)
          && resting.State() == FilledBy(old(resting.State()), qty)
      ensures order !in Objects(pending) && resting !in Objects(pending)
      ensures FrontReady(side) && View() == WithFront(old(View()), side, resting.State())
    {
      hide WellPlaced, AllPlaced, LevelsSeen, Seen, Refs, FilledBy;
      ghost var s := FilledBy(order.State(), qty);
      AsideShows(order, s);
      order.Fill(qty);
      shown := shown[order := s];
      s := FilledBy(resting.State(), qty);
      FrontShows(side, resting, s);
      resting.Fill(qty);
      shown := shown[resting := s];
    }

    ghost predicate FrontReady(side: Side)
      reads this
    {
      Levels(side) != [] && Levels(side)[0].queue != []
    }

    method MakeTrade(buyId: nat, sellId: nat, price: int, qty: nat, timestamp: int) returns (t: Trade)
      requires Valid()
      modifies this`trades, this`nextTradeId
      ensures Valid() && Placed() == old(Placed())
      ensures t == Trade(old(nextTradeId), buyId, sellId, price, qty, timestamp) && trades == old(trades) + [t]
      ensures View() == old(View()).(trades := trades, nextTradeId := old(nextTradeId) + 1)
    {
      t := Trade(nextTradeId, buyId, sellId, price, qty, timestamp);
      nextTradeId := nextTradeId + 1;
      trades := trades + [t];
    }

    /** The two fills, the trade and the stop check of one turn. */
    method Execute(order: Order, resting: Order, buyId: nat, sellId: nat, price: int, qty: nat, ghost side: Side)
      returns (t: Trade)
      requires Valid() && order in shown && order !in Placed() && AtFront(side, resting)
      modifies this`pending, this`triggered, this`shown, this`trades, this`nextTradeId, order, resting, pending
      ensures Valid() && Placed() == old(Placed()) && shown.Keys == old(shown.Keys)
      ensures order.State() == FilledBy(old(order.State()), qty)
          && resting.State() == FilledBy(old(resting.State()), qty)
      ensures t == Trade(old(nextTradeId), buyId, sellId, price, qty, order.timestamp) && trades == old(trades) + [t]
      ensures var b := WithFront(old(View()), side, resting.State());
        View() == CheckStops(b.(trades := trades, nextTradeId := old(nextTradeId) + 1), price)
    {
      hide WellPlaced, AllPlaced, LevelsSeen, Seen, Refs, CheckStops, FilledBy, WithFront;
      hide Valid, View, Placed;
      FillBoth(order, resting, qty, side);
      t := MakeTrade(buyId, sellId, price, qty, order.timestamp);
      CheckStopTriggers(price);
    }

    /** Takes a finished order out of the index. */
    method Forget(id: nat)
      requires Valid()
      modifies this`active
      ensures Valid() && Placed() <= old(Placed())
      ensures active == old(active) - {id} && View() == old(View()).(active := old(View()).active - {id})
    {
      hide Sited, Members, LevelsSeen, Seen, Distinct, Refs;
      RefsRemove(active, id);
      active := active - {id};
    }

    /** Takes the front order out of its level; the level stays, even if empty. */
    method Pop(side: Side)
      requires Valid() && FrontReady(side)
      modifies this`bids, this`asks
      ensures Valid() && Placed() <= old(Placed())
      ensures Levels(side) == PopFront(old(Levels(side)))
      ensures old(Levels(side)[0].queue[0] in Resting()) && Resting() <= old(Resting() - {Levels(side)[0].queue[0]})
      ensures old(Indexed()) ==> Indexed()
      ensures View() == WithoutFront(old(View()), side)
    {
      hide WellPlaced, AllPlaced, LevelsSeen, Seen, PopFront, Refs, WithoutFront, Members;
      PopShows(side);
      ghost var was := Resting();
      if side.Buy? { bids := PopFront(bids); } else { asks := PopFront(asks); }
      if Lists(active, was) { ListsFewer(active, was, Resting()); }
    }

    lemma PopShows(side: Side)
      requires Valid() && FrontReady(side)
      ensures var b, levels := View(), PopFront(Levels(side));
        && WithoutFront(b, side) == b.With(side, LevelsSeen(levels, shown))
        && WellPlaced(if side.Buy? then levels else bids, if side.Buy? then asks else levels, active, pending,
                      triggered)
        && AllPlaced(if side.Buy? then levels else bids, if side.Buy? then asks else levels, active, pending, triggered)
              <= Placed()
      ensures var front, other := Levels(side)[0].queue[0], Members(Levels(side.Opposite()));
        front in Resting() && Members(PopFront(Levels(side))) + other <= Resting() - {front}
    {
      hide WellPlaced, AllPlaced, LevelsSeen, Seen, PopFront, Refs, Sited, Members;
      FrontView(side);
      SidesSited(bids, asks, active, pending, triggered);
      PopFrontOk(side, Levels(side), shown);
      LiveLevels.SidesApart(bids, asks);
      ShrinkPlaces(bids, asks, active, pending, triggered, side, PopFront(Levels(side)));
    }

    /** Shows the next lot of the front order. */
    method Refill(resting: Order, ghost side: Side)
      requires Valid() && AtFront(side, resting)
      modifies this`shown, resting
      ensures Valid() && Placed() == old(Placed()) && shown.Keys == old(shown.Keys)
      ensures resting.State() == Replenished(old(resting.State())) && FrontReady(side)
      ensures View() == WithFront(old(View()), side, resting.State())
    {
      hide WellPlaced, AllPlaced, LevelsSeen, Seen, Refs, Replenished;
      ghost var s := Replenished(resting.State());
      FrontShows(side, resting, s);
      resting.Replenish();
      shown := shown[resting := s];
    }

    /** Drops an emptied level from its map. */
    method DropLevel(side: Side)
      requires Valid() && Levels(side) != [] && Levels(side)[0].queue == []
      modifies this`bids, this`asks
      ensures Valid() && Placed() <= old(Placed()) && Levels(side) == old(Levels(side))[1..]
      ensures Resting() <= old(Resting()) && (old(Indexed()) ==> Indexed())
      ensures old(View()).On(side) != [] && View() == old(View()).With(side, old(View()).On(side)[1..])
    {
      hide WellPlaced, AllPlaced, LevelsSeen, Seen, Refs, Sited, Members;
      SidesSited(bids, asks, active, pending, triggered);
      SitedTail(side, Levels(side));
      MembersTail(Levels(side));
      LevelsSeenTail(Levels(side), shown);
      ShrinkPlaces(bids, asks, active, pending, triggered, side, Levels(side)[1..]);
      assert LevelsSeen(Levels(side)[1..], shown) == LevelsSeen(Levels(side), shown)[1..];
      ghost var was := Resting();
      if side.Buy? { bids := bids[1..]; } else { asks := asks[1..]; }
      if Lists(active, was) { ListsFewer(active, was, Resting()); }
    }

    lemma FrontView(side: Side)
      requires Valid() && FrontReady(side)
      ensures var b, o := View(), Levels(side)[0].queue[0];
        && b.On(side) != [] && b.On(side)[0].queue != [] && b.On(side)[0].price == Levels(side)[0].price
        && b.On(side)[0].queue[0] == o.State() && o in shown && o in Placed()
      ensures Objects(pending) <= Placed() && View().trades == trades && View().nextTradeId == nextTradeId
    {
      FrontShows(side, Levels(side)[0].queue[0], PlainOrder(0, 0, Buy, Limit, 0, 0));
    }

    /**
      One turn of the inner loop that trades: both fills, the trade, the stops, and the front order's exit or refill.
     */
    method TradeWithFront(order: Order, resting: Order, buyId: nat, sellId: nat, qty: nat, side: Side)
        returns (t: Trade)
      requires Valid() && order in shown && order !in Placed() && order.side == side.Opposite()
          && AtFront(side, resting)
      requires buyId == (if side.Buy? then resting.id else order.id)
          && sellId == (if side.Buy? then order.id else resting.id)
      modifies this, Placed(), order
      ensures Valid() && Placed() <= old(Placed()) && shown.Keys == old(shown.Keys)
      ensures order.State() == FilledBy(old(order.State()), qty)
      ensures trades == old(trades) + [t]
      ensures |Levels(side)| == old(|Levels(side)|) && |Levels(side)[0].queue| <= old(|Levels(side)[0].queue|)
      ensures old(View()).On(side) != [] && old(View()).On(side)[0].queue != []
      ensures View() == Struck(old(View()), old(order.State()), side, qty)
      ensures Resting() <= old(Resting()) && (old(Indexed()) ==> Indexed())
    {
      hide Lists, Members;
      hide WellPlaced, AllPlaced, LevelsSeen, Seen, Refs, FilledBy, Replenished, CheckStops, WithFront, WithoutFront,
          Valid, View, Placed, Struck;
      FrontView(side);
      ghost var b, agg := View(), order.State();
      TurnEnds(b, agg, side, qty);
      t := Execute(order, resting, buyId, sellId, Levels(side)[0].price, qty, side);
      if resting.leaves == 0 {
        ghost var was, index := Resting(), active;
        Forget(resting.id);
        Pop(side);
        if Lists(index, was) { ListsWithout(index, was, Resting(), resting); }
      } else if resting.kind.Iceberg? && resting.display == 0 {
        Refill(resting, side);
      }
    }

    // ----- matchBuy, matchSell -----

    lemma Heads(side: Side)
      requires Valid()
      ensures |View().On(side)| == |Levels(side)| && Objects(pending) <= Placed()
      ensures var levels, seen := Levels(side), View().On(side); levels != [] ==>
        seen[0].price == levels[0].price && |seen[0].queue| == |levels[0].queue|
    {
      assert Objects(pending) <= Placed();
    }

    method SweepAskLevel(order: Order) returns (result: seq<Trade>)
      requires Valid() && order in shown && order !in Placed() && order.side.Buy? && asks != []
      modifies this, Placed(), order
      ensures Valid() && Placed() <= old(Placed()) && shown.Keys == old(shown.Keys)
      ensures trades == old(trades) + result
      ensures |asks| == old(|asks|) && (order.IsActive() ==> asks[0].queue == []) && old(View()).asks != []
      ensures View().asks != []
      ensures InnerEnd(View(), order.State(), Sell) == InnerEnd(old(View()), old(order.State()), Sell)
      ensures Resting() <= old(Resting()) && (old(Indexed()) ==> Indexed())
    {
      hide Resting, Indexed;
      hide WellPlaced, AllPlaced, LevelsSeen, Seen, Refs, FilledBy, CheckStops, Valid, View, Placed, Struck, OuterEnd,
           InnerEnd, MatchOne, Rest, Min;
      result := [];
      Heads(Sell);
      ghost var goal := InnerEnd(View(), order.State(), Sell);
      while order.IsActive() && asks[0].queue != []
        invariant Valid() && shown.Keys == old(shown.Keys) && Placed() <= old(Placed())
        invariant |asks| == old(|asks|) && trades == old(trades) + result
        invariant Resting() <= old(Resting()) && (old(Indexed()) ==> Indexed())
        invariant View().asks != [] && InnerEnd(View(), order.State(), Sell) == goal
        decreases |asks[0].queue|, if order.IsActive() then order.leaves + 1 else 0
      {
        var resting := asks[0].queue[0];
        FrontView(Sell);
        var available := resting.VisibleQty();
        if available == 0 {
          InnerSkip(View(), order.State(), Sell);
          Pop(Sell);
        } else {
          InnerTrade(View(), order.State(), Sell);
          var qty := Min(order.leaves, available);
          TurnShrinks(order.State(), available);
          var t := TradeWithFront(order, resting, order.id, resting.id, qty, Sell);
          result := result + [t];
        }
      }
    }

    method SweepBidLevel(order: Order) returns (result: seq<Trade>)
      requires Valid() && order in shown && order !in Placed() && order.side.Sell? && bids != []
      modifies this, Placed(), order
      ensures Valid() && Placed() <= old(Placed()) && shown.Keys == old(shown.Keys)
      ensures trades == old(trades) + result
      ensures |bids| == old(|bids|) && (order.IsActive() ==> bids[0].queue == []) && old(View()).bids != []
      ensures View().bids != []
      ensures InnerEnd(View(), order.State(), Buy) == InnerEnd(old(View()), old(order.State()), Buy)
      ensures Resting() <= old(Resting()) && (old(Indexed()) ==> Indexed())
    {
      hide Resting, Indexed;
      hide WellPlaced, AllPlaced, LevelsSeen, Seen, Refs, FilledBy, CheckStops, Valid, View, Placed, Struck, OuterEnd,
           InnerEnd, MatchOne, Rest, Min;
      result := [];
      Heads(Buy);
      ghost var goal := InnerEnd(View(), order.State(), Buy);
      while order.IsActive() && bids[0].queue != []
        invariant Valid() && shown.Keys == old(shown.Keys) && Placed() <= old(Placed())
        invariant |bids| == old(|bids|) && trades == old(trades) + result
        invariant Resting() <= old(Resting()) && (old(Indexed()) ==> Indexed())
        invariant View().bids != [] && InnerEnd(View(), order.State(), Buy) == goal
        decreases |bids[0].queue|, if order.IsActive() then order.leaves + 1 else 0
      {
        var resting := bids[0].queue[0];
        FrontView(Buy);
        var available := resting.VisibleQty();
        if available == 0 {
          InnerSkip(View(), order.State(), Buy);
          Pop(Buy);
        } else {
          InnerTrade(View(), order.State(), Buy);
          var qty := Min(order.leaves, available);
          TurnShrinks(order.State(), available);
          var t := TradeWithFront(order, resting, resting.id, order.id, qty, Buy);
          result := result + [t];
        }
      }
    }

    // ----- addToBook -----

    method AddToBook(order: Order)
      requires Valid() && order in shown && order !in Placed()
      modifies this`bids, this`asks, this`active
      ensures Valid() && Placed() <= old(Placed()) + {order}
      ensures View() == BookSpec.AddToBook(old(View()), order.State())
      ensures order.id in active && active[order.id] == order && Resting() == old(Resting()) + {order}
      ensures old(Indexed()) && FreeId(old(Resting()), order.id) ==> Indexed()
    {
      hide WellPlaced, AllPlaced, LevelsSeen, Seen, Insert, Refs, BookSpec.AddToBook, Members;
      AddShows(order);
      AddRests(order);
      ghost var was, index := Resting(), active;
      if order.side.Buy? { bids := Insert(bids, order); } else { asks := Insert(asks, order); }
      active := active[order.id := order];
      if Lists(index, was) && FreeId(was, order.id) { ListsMore(index, was, Resting(), order); }
    }

    lemma {:induction false} AddRests(order: Order)
      requires Valid() && order !in Placed()
      ensures var bids1 := if order.side.Buy? then Insert(bids, order) else bids;
        var asks1 := if order.side.Buy? then asks else Insert(asks, order);
        Members(bids1) + Members(asks1) == Resting() + {order}
    {
      hide Insert, Members, LevelsSeen, Seen, Sited;
      InsertOk(Levels(order.side), order, map[]);
    }

    lemma {:induction false} AddShows(order: Order)
      requires Valid() && order in shown && order !in Placed()
      ensures var bids1 := if order.side.Buy? then Insert(bids, order) else bids;
        var asks1 := if order.side.Buy? then asks else Insert(asks, order);
        && WellPlaced(bids1, asks1, active[order.id := order], pending, triggered)
        && AllPlaced(bids1, asks1, active[order.id := order], pending, triggered) <= Placed() + {order}
        && BookSpec.AddToBook(View(), order.State()) ==
           View().(bids := LevelsSeen(bids1, shown), asks := LevelsSeen(asks1, shown),
                   active := Refs(active[order.id := order]))
    {
      assert Labelled(shown) && Sited(order.side, Levels(order.side)) && order !in Members(Levels(order.side));
      hide WellPlaced, AllPlaced, LevelsSeen, Seen, Insert, Refs;
      InsertPlaces(bids, asks, active, pending, triggered, order, shown);
      InsertOk(Levels(order.side), order, shown);
      RefsAdd(active, order);
    }

    method MatchBuy(order: Order) returns (result: seq<Trade>)
      requires Valid() && order in shown && order !in Placed() && order.side.Buy?
      modifies this, Placed(), order
      ensures Valid() && Placed() <= old(Placed()) + {order} && shown.Keys == old(shown.Keys)
      ensures trades == old(trades) + result
      ensures View() == MatchOne(old(View()), old(order.State()))
      ensures Resting() <= old(Resting()) + {order}
      ensures old(Indexed()) && FreeId(old(Resting()), order.id) ==> Indexed()
    {
      hide Resting, Indexed;
      hide WellPlaced, AllPlaced, LevelsSeen, Seen, Refs, FilledBy, Valid, View, Placed, OuterEnd, InnerEnd, MatchOne;
      result := [];
      ghost var goal := OuterEnd(View(), order.State(), Sell);
      Heads(Sell);
      MatchOneEnd(View(), order.State());
      while order.IsActive() && asks != []
        invariant Valid() && shown.Keys == old(shown.Keys) && Placed() <= old(Placed())
        invariant trades == old(trades) + result && |View().asks| == |asks|
        invariant Resting() <= old(Resting()) && (old(Indexed()) ==> Indexed())
        invariant OuterEnd(View(), order.State(), Sell) == goal
        decreases |asks|, order.IsActive()
      {
        Heads(Sell);
        if !order.kind.Market? && asks[0].price > order.price { break; }
        OuterEnter(View(), order.State(), Sell);
        var part := SweepAskLevel(order);
        result := result + part;
        Heads(Sell);
        InnerLeave(View(), order.State(), Sell);
        if asks[0].queue == [] { DropLevel(Sell); }
        Heads(Sell);
      }
      Heads(Sell);
      OuterStop(View(), order.State(), Sell);
      if order.leaves != 0 && !order.kind.Market? { AddToBook(order); }
    }

    method MatchSell(order: Order) returns (result: seq<Trade>)
      requires Valid() && order in shown && order !in Placed() && order.side.Sell?
      modifies this, Placed(), order
      ensures Valid() && Placed() <= old(Placed()) + {order} && shown.Keys == old(shown.Keys)
      ensures trades == old(trades) + result
      ensures View() == MatchOne(old(View()), old(order.State()))
      ensures Resting() <= old(Resting()) + {order}
      ensures old(Indexed()) && FreeId(old(Resting()), order.id) ==> Indexed()
    {
      hide Resting, Indexed;
      hide WellPlaced, AllPlaced, LevelsSeen, Seen, Refs, FilledBy, Valid, View, Placed, OuterEnd, InnerEnd, MatchOne;
      result := [];
      ghost var goal := OuterEnd(View(), order.State(), Buy);
      Heads(Buy);
      MatchOneEnd(View(), order.State());
      while order.IsActive() && bids != []
        invariant Valid() && shown.Keys == old(shown.Keys) && Placed() <= old(Placed())
        invariant trades == old(trades) + result && |View().bids| == |bids|
        invariant Resting() <= old(Resting()) && (old(Indexed()) ==> Indexed())
        invariant OuterEnd(View(), order.State(), Buy) == goal
        decreases |bids|, order.IsActive()
      {
        Heads(Buy);
        if !order.kind.Market? && bids[0].price < order.price { break; }
        OuterEnter(View(), order.State(), Buy);
        var part := SweepBidLevel(order);
        result := result + part;
        Heads(Buy);
        InnerLeave(View(), order.State(), Buy);
        if bids[0].queue == [] { DropLevel(Buy); }
        Heads(Buy);
      }
      Heads(Buy);
      OuterStop(View(), order.State(), Buy);
      if order.leaves != 0 && !order.kind.Market? { AddToBook(order); }
    }

    // ----- match: the order itself, then the stops its trades triggered, batch by batch -----

    method MatchEither(order: Order) returns (result: seq<Trade>)
      requires Valid() && order in shown && order !in Placed()
      modifies this, Placed(), order
      ensures Valid() && Placed() <= old(Placed()) + {order} && shown.Keys == old(shown.Keys)
      ensures trades == old(trades) + result
      ensures View() == MatchOne(old(View()), old(order.State()))
      ensures Steady(old(shown), shown, old(Placed()) + {order})
      ensures Resting() <= old(Resting()) + {order}
      ensures old(Indexed()) && FreeId(old(Resting()), order.id) ==> Indexed()
    {
      hide Resting, Indexed;
      hide Placing, View, Placed, MatchOne;
      if order.side.Buy? { result := MatchBuy(order); } else { result := MatchSell(order); }
    }

    /** Takes the staged stops out of the book. */
    method TakeBatch() returns (batch: seq<Order>)
      requires Valid()
      modifies this`triggered
      ensures Valid() && Distinct(batch) && Objects(batch) !! Placed() && Objects(batch) + Placed() == old(Placed())
      ensures batch == old(triggered) && triggered == []
      ensures Seen(batch, shown) == old(View()).triggered && View() == old(View()).(triggered := [])
    {
      hide WellPlaced, AllPlaced, Seen, LevelsSeen, Refs;
      batch := triggered;
      TakePlaces(bids, asks, active, pending, triggered);
      SeenEmpty(shown);
      triggered := [];
    }

    method RunTriggered(batch: seq<Order>) returns (result: seq<Trade>)
      requires Valid() && Distinct(batch) && Objects(batch) !! Placed() && Objects(batch) <= shown.Keys
      modifies this, Placed(), Objects(batch)
      ensures Valid() && Placed() <= old(Placed()) + Objects(batch) && shown.Keys == old(shown.Keys)
      ensures trades == old(trades) + result
      ensures View() == RunBatch(old(View()), old(Seen(batch, shown)))
      ensures old(Indexed()) && Unique(old(Resting()) + Objects(batch)) ==> Indexed()
    {
      hide Resting, Indexed, Unique;
      RestingPlaced();
      hide Valid, Seen, View, Placed, MatchOne, RunBatch, Distinct, Objects, Steady;
      result := [];
      ghost var goal := RunBatch(View(), Seen(batch, shown));
      var rest := batch;
      while rest != []
        invariant Valid() && shown.Keys == old(shown.Keys) && Placed() <= old(Placed()) + Objects(batch)
        invariant Distinct(rest) && Objects(rest) <= Objects(batch) && Objects(rest) !! Placed()
        invariant trades == old(trades) + result
        invariant RunBatch(View(), Seen(rest, shown)) == goal
        invariant Resting() <= old(Resting()) + Objects(batch)
        invariant old(Indexed()) && Unique(old(Resting()) + Objects(batch)) ==> Indexed()
      {
        var stop, next := rest[0], rest[1..];
        ghost var before := shown;
        ghost var touched := Placed() + {stop};
        BatchFront(rest);
        PlacedShown();
        SeenTail(rest, shown);
        RunBatchNext(View(), Seen(rest, shown));
        StopShown(stop);
        RestingPlaced();
        if Unique(old(Resting()) + Objects(batch)) { UniqueFree(old(Resting()) + Objects(batch), Resting(), stop); }
        var t := MatchEither(stop);
        result := result + t;
        SeenKept(next, before, shown, touched);
        rest := next;
      }
      SeenEmpty(shown);
      RunBatchDone(View());
    }

    lemma StopShown(stop: Order)
      requires Valid() && stop in shown
      ensures Look(shown, stop) == stop.State()
    {
    }

    ghost method Register(order: Order)
      requires Valid() && order !in shown
      modifies this`shown
      ensures Valid() && View() == old(View()) && Placed() == old(Placed())
          && shown == old(shown)[order := order.State()]
      ensures order !in Placed()
    {
      hide WellPlaced, Seen, LevelsSeen, Refs;
      AsideShows(order, order.State());
      shown := shown[order := order.State()];
    }

    /** Keeps a stop until a trade triggers it. */
    method Hold(order: Order)
      requires Valid() && order in shown && order !in Placed()
      modifies this`pending
      ensures Valid() && Placed() == old(Placed()) + {order}
      ensures View() == old(View()).(pending := old(View()).pending + [order.State()])
    {
      hide WellPlaced, AllPlaced, Seen, LevelsSeen, Refs;
      HoldPlaces(bids, asks, active, pending, triggered, order);
      SeenConcat(pending, [order], shown);
      SeenOne(order, shown);
      pending := pending + [order];
    }

    lemma StopCounts()
      ensures |View().pending| == |pending| && |View().triggered| == |triggered|
    {
    }

    /** One turn of the cascade: the staged stops are taken out and run. */
    method RunStaged() returns (result: seq<Trade>)
      requires Valid()
      modifies this, Placed()
      ensures Valid() && Placed() <= old(Placed()) && shown.Keys == old(shown.Keys)
      ensures trades == old(trades) + result
      ensures View() == RunBatch(old(View()).(triggered := []), old(View()).triggered)
      ensures old(Indexed()) && old(Unique(Placed())) ==> Indexed()
    {
      hide Resting, Indexed, Unique;
      hide Valid, View, Placed, Seen, MatchOne, RunBatch, Distinct;
      PlacedShown();
      RestingPlaced();
      if Unique(Placed()) { UniqueFewer(Placed(), Resting() + Objects(triggered)); }
      var batch := TakeBatch();
      result := RunTriggered(batch);
    }

    method Match(order: Order) returns (result: seq<Trade>)
      requires Valid() && order !in shown
      modifies this, Placed(), order
      ensures Valid() && Placed() <= old(Placed()) + {order} && shown.Keys == old(shown.Keys) + {order}
      ensures trades == old(trades) + result
      ensures View() == BookSpec.Match(old(View()), old(order.State()))
      ensures old(Indexed()) && Unique(old(Placed()) + {order}) ==> Indexed()
    {
      hide Resting, Indexed, Unique;
      ghost var all := Placed() + {order};
      ghost var good := Indexed() && Unique(all);
      hide Valid, View, Placed, Seen, MatchOne, RunBatch, Cascade, Distinct;
      Register(order);
      if order.kind.StopLoss? && !order.triggered {
        Hold(order);
        return [];
      }
      RestingPlaced();
      if Unique(all) { UniqueFree(all, Resting(), order); }
      result := MatchEither(order);
      ghost var goal := Cascade(View());
      while triggered != []
        invariant Valid() && shown.Keys == old(shown.Keys) + {order} && Placed() <= old(Placed()) + {order}
        invariant trades == old(trades) + result && Cascade(View()) == goal
        invariant good ==> Indexed()
        decreases |pending| + |triggered|
      {
        StopCounts();
        CascadeNext(View());
        if Unique(all) { UniqueFewer(all, Placed()); }
        var t := RunStaged();
        StopCounts();
        result := result + t;
      }
      StopCounts();
      CascadeNext(View());
    }

    lemma PlacedShown()
      requires Valid()
      ensures Placed() <= shown.Keys
    {
    }

    // ----- cancelLocked, modifyOrder -----

    lemma {:induction false} EraseShows(id: nat)
      requires Valid() && id in active
      ensures var o := active[id];
        var bids1 := if o.side.Buy? then Erase(bids, o.price, id) else bids;
        var asks1 := if o.side.Buy? then asks else Erase(asks, o.price, id);
        && WellPlaced(bids1, asks1, active - {id}, pending, triggered)
        && AllPlaced(bids1, asks1, active - {id}, pending, triggered) <= Placed() - {o}
        && o in shown && o in Placed()
        && Members(bids1) + Members(asks1) <= Resting() - {o}
        && BookSpec.Cancel(View(), id) ==
           View().(bids := LevelsSeen(bids1, shown), asks := LevelsSeen(asks1, shown), active := Refs(active - {id}))
    {
      assert Labelled(shown) && Sited(active[id].side, Levels(active[id].side)) && active[id] in Placed();
      hide WellPlaced, AllPlaced, LevelsSeen, Seen, Erase, RemoveOrder, Sited, Refs;
      ActiveRefs(id);
      RefsRemove(active, id);
      ErasePlaces(bids, asks, active, pending, triggered, id, shown);
      EraseOk(active[id].side, Levels(active[id].side), active[id].price, id, shown);
    }

    lemma IndexKnows(id: nat)
      ensures Indexed() && id !in active ==> FreeId(Resting(), id)
    {
    }

    lemma CancelUnknown(id: nat)
      requires id !in active
      ensures BookSpec.Cancel(View(), id) == View()
    {
    }

    method CancelLocked(id: nat) returns (ok: bool)
      requires Valid()
      modifies this`bids, this`asks, this`active, this`shown, Placed()
      ensures Valid() && Placed() <= old(Placed()) && shown.Keys == old(shown.Keys)
      ensures ok == (id in old(active)) && View() == BookSpec.Cancel(old(View()), id)
      ensures ok ==> old(active)[id].State() == CancelledOrder(old(active[id].State())) && old(active)[id] !in Placed()
      ensures ok ==> old(active)[id].leaves == 0 && old(active)[id].status == Cancelled
      ensures id !in active && Resting() <= old(Resting())
      ensures old(Indexed()) ==> Indexed() && FreeId(Resting(), id)
    {
      hide WellPlaced, AllPlaced, LevelsSeen, Seen, Erase, Refs, BookSpec.Cancel;
      if id !in active {
        CancelUnknown(id);
        IndexKnows(id);
        return false;
      }
      var order := active[id];
      EraseShows(id);
      ghost var was, index := Resting(), active;
      ghost var s := CancelledOrder(order.State());
      if order.side.Buy? { bids := Erase(bids, order.price, id); } else { asks := Erase(asks, order.price, id); }
      active := active - {id};
      AsideShows(order, s);
      order.Cancel();
      shown := shown[order := s];
      assert Placing() && Faithful() && order !in Placed();
      if Lists(index, was) { ListsErased(index, was, Resting(), id); }
      assert View() == BookSpec.Cancel(old(View()), id);
      return true;
    }

    method CancelOrder(id: nat) returns (ok: bool)
      requires Valid()
      modifies this, Placed()
      ensures Valid() && Placed() <= old(Placed()) && shown.Keys == old(shown.Keys)
      ensures ok == (id in old(active)) && View() == BookSpec.Cancel(old(View()), id)
      ensures old(Indexed()) ==> Indexed()
    {
      ok := CancelLocked(id);
    }

    method ModifyOrder(id: nat, newPrice: int, newQty: nat, timestamp: int) returns (ok: bool)
      requires Valid()
      modifies this, Placed()
      ensures Valid() && fresh(Placed() - old(Placed())) && fresh(shown.Keys - old(shown.Keys))
          && old(shown.Keys) <= shown.Keys
      ensures ok == (id in old(active)) && View() == BookSpec.Modify(old(View()), id, newPrice, newQty, timestamp)
      ensures old(Indexed()) ==> Indexed()
      ensures old(Unique(Placed())) ==> Unique(Placed()) && IdsIn(Placed()) <= old(IdsIn(Placed()))
    {
      hide Resting, Indexed, Unique, IdsIn;
      hide Valid, View, Placed, BookSpec.Cancel, BookSpec.AddToBook;
      ActiveRefs(id);
      if id !in active { return false; }
      var old_order := active[id];
      var order := new Order.MakePlain(old_order.id, timestamp, old_order.side, old_order.kind, newPrice, newQty);
      Register(order);
      ok := CancelLocked(id);
      ghost var left := Placed();
      AddToBook(order);
      if old(Unique(Placed())) { Replaces(old(Placed()), left, Placed(), old_order, order); }
    }

    lemma ActiveRefs(id: nat)
      requires Valid()
      ensures id in active <==> id in View().active
      ensures id in active ==> active[id].id == id && active[id] in Placed()
      ensures id in active ==> View().active[id] == Ref(active[id].side, active[id].kind, active[id].price)
    {
    }

    // ----- the quotes -----

    method BestBid() returns (p: int)
      requires Valid()
      ensures p == BestPrice(View().bids)
    {
      p := if bids == [] then 0 else bids[0].price;
    }

    method BestAsk() returns (p: int)
      requires Valid()
      ensures p == BestPrice(View().asks)
    {
      p := if asks == [] then 0 else asks[0].price;
    }

    method Spread() returns (p: int)
      requires Valid()
      ensures p == BookSpec.Spread(View())
    {
      if bids == [] || asks == [] { return 0; }
      p := asks[0].price - bids[0].price;
    }
  }

  /** A sell stop waits above its trigger, a buy stop below. */
  predicate Holds(o: Order, last: int) {
    if o.side.Sell? then last > o.triggerPrice else last < o.triggerPrice
  }

  /** Of the stops that waited, the first `i` left are looked at and wait on; who is gone has fired. */
  ghost predicate Sifted(was: seq<Order>, pending: seq<Order>, triggered: seq<Order>, i: nat, last: int) {
    && i <= |pending| && (forall k | 0 <= k < i :: Holds(pending[k], last))
    && (forall o | o in pending :: o in was)
    && (forall o | o in was && o !in pending :: o in triggered && !Holds(o, last))
  }

  lemma SiftedStart(was: seq<Order>, triggered: seq<Order>, last: int)
    ensures Sifted(was, was, triggered, 0, last)
  {
  }

  lemma SiftedNext(was: seq<Order>, pending: seq<Order>, triggered: seq<Order>, i: nat, last: int)
    requires i < |pending| && Sifted(was, pending, triggered, i, last)
    ensures var o, price := pending[i], pending[i].triggerPrice;
      if (o.side.Sell? && last <= price) || (o.side.Buy? && last >= price)
      then Sifted(was, pending[..i] + pending[i + 1..], triggered + [o], i, last)
      else Sifted(was, pending, triggered, i + 1, last)
  {
    assert forall o | o in pending && o !in pending[..i] + pending[i + 1..] :: o == pending[i];
  }

  /** One object goes and another one of the same id comes. */
  lemma Replaces(s: set<Order>, left: set<Order>, t: set<Order>, x: Order, y: Order)
    requires Unique(s) && left <= s && x in s && x !in left && y.id == x.id && t <= left + {y}
    ensures Unique(t) && IdsIn(t) <= IdsIn(s)
  {
    UniqueFree(s, left, x);
    UniqueMore(left, t, y);
    assert x.id in IdsIn(s);
  }

  /** The book with another value for the front order of a side. */
  ghost function WithFront(b: Book, side: Side, s: OrderState): Book {
    if b.On(side) == [] || b.On(side)[0].queue == [] then b
    else WithQueue(b, side, [s] + b.On(side)[0].queue[1..])
  }

  /** The book after the stop at position `i` has fired. */
  ghost function Fired(b: Book, i: nat): Book
    requires i < |b.pending|
  {
    b.(pending := b.pending[..i] + b.pending[i + 1..], triggered := b.triggered + [TriggeredOrder(b.pending[i])])
  }

  /** The book once the stops from position `i` on have been looked at too. */
  ghost function CheckFrom(b: Book, i: nat, last: int): Book
    requires i <= |b.pending|
  {
    b.(pending := b.pending[..i] + Holding(b.pending[i..], last),
       triggered := b.triggered + Firing(b.pending[i..], last))
  }

  lemma CheckFromStart(b: Book, last: int)
    ensures CheckFrom(b, 0, last) == CheckStops(b, last)
  {
    assert b.pending[0..] == b.pending;
  }

  lemma CheckFromEnd(b: Book, last: int)
    ensures CheckFrom(b, |b.pending|, last) == b
  {
  }

  lemma CheckFromNext(b: Book, i: nat, last: int)
    requires i < |b.pending|
    ensures !Fires(b.pending[i], last) ==> CheckFrom(b, i + 1, last) == CheckFrom(b, i, last)
    ensures Fires(b.pending[i], last) ==> CheckFrom(Fired(b, i), i, last) == CheckFrom(b, i, last)
  {
    assert b.pending[i..][1..] == b.pending[i + 1..];
    var kept := b.pending[..i] + b.pending[i + 1..];
    assert kept[i..] == b.pending[i + 1..] && kept[..i] == b.pending[..i];
  }

  /** The book without the front order of a side. */
  ghost function WithoutFront(b: Book, side: Side): Book {
    if b.On(side) == [] || b.On(side)[0].queue == [] then b
    else WithQueue(b, side, b.On(side)[0].queue[1..])
  }

  /** A turn that trades finishes the aggressor or leaves less of it. */
  lemma TurnShrinks(agg: OrderState, visible: nat)
    requires agg.IsActive() && 0 < visible
    ensures var a := FilledBy(agg, Min(agg.leaves, visible)); !a.IsActive() || a.leaves < agg.leaves
  {
  }

  /** The three ways a turn ends, put together, are what Struck says in one step. */
  lemma TurnEnds(b: Book, agg: OrderState, side: Side, qty: nat)
    requires b.On(side) != [] && b.On(side)[0].queue != [] && agg.side == side.Opposite()
    ensures var r := b.On(side)[0].queue[0]; var r1, price := FilledBy(r, qty), b.On(side)[0].price;
      var buyId, sellId := if side.Buy? then r.id else agg.id, if side.Buy? then agg.id else r.id;
      var t := Trade(b.nextTradeId, buyId, sellId, price, qty, agg.timestamp);
      var v := CheckStops(WithFront(b, side, r1).(trades := b.trades + [t], nextTradeId := b.nextTradeId + 1), price);
      Struck(b, agg, side, qty) ==
        if r1.leaves == 0 then WithoutFront(v.(active := v.active - {r.id}), side)
        else if r1.kind.Iceberg? && r1.display == 0 then WithFront(v, side, Replenished(r1))
        else v
  {
    hide FilledBy, CheckStops;
    var l, rest := b.On(side)[0], b.On(side)[1..];
    var r1 := FilledBy(l.queue[0], qty);
    assert ([r1] + l.queue[1..])[1..] == l.queue[1..];
    assert ([Level(l.price, [r1] + l.queue[1..])] + rest)[1..] == rest;
    assert [] + l.queue[1..] == l.queue[1..];
    var c := b.(trades := b.trades + [TradeOf(b.nextTradeId, agg, Fill(l.queue[0].id, l.price, qty, r1.leaves == 0))],
                nextTradeId := b.nextTradeId + 1);
    var front, after := [Level(l.price, [r1] + l.queue[1..])] + rest, [Level(l.price, AfterFront(l.queue, qty))] + rest;
    CheckStopsAside(c, side, front, l.price);
    CheckStopsAside(c, side, after, l.price);
    assert WithFront(b, side, r1).(trades := c.trades, nextTradeId := c.nextTradeId) == c.With(side, front);
    assert WithQueue(b, side, AfterFront(l.queue, qty)).(trades := c.trades, nextTradeId := c.nextTradeId)
        == c.With(side, after);
    var v, w := CheckStops(c.With(side, front), l.price), CheckStops(c.With(side, after), l.price);
    assert Struck(b, agg, side, qty) == if r1.leaves == 0 then w.(active := w.active - {l.queue[0].id}) else w;
    if r1.leaves == 0 {
      assert WithoutFront(v.(active := v.active - {l.queue[0].id}), side) == w.(active := w.active - {l.queue[0].id});
    } else if r1.kind.Iceberg? && r1.display == 0 {
      assert WithFront(v, side, Replenished(r1)) == w;
    } else {
      assert v == w;
    }
  }

  lemma CheckStopsAside(b: Book, side: Side, levels: seq<Level>, last: int)
    ensures CheckStops(b.With(side, levels), last) == CheckStops(b, last).With(side, levels)
  {
  }

  lemma {:induction false} RunBatchNext(b: Book, batch: seq<OrderState>)
    requires batch != []
    ensures RunBatch(b, batch) == RunBatch(MatchOne(b, batch[0]), batch[1..])
  {
  }

  lemma {:induction false} CascadeNext(b: Book)
    ensures b.triggered == [] ==> Cascade(b) == b
    ensures b.triggered != [] ==> Cascade(b) == Cascade(RunBatch(b.(triggered := []), b.triggered))
    ensures var r := RunBatch(b.(triggered := []), b.triggered); |r.pending| + |r.triggered| == |b.pending|
  {
  }

  lemma {:induction false} RunBatchDone(b: Book)
    ensures RunBatch(b, []) == b
  {
  }
}
