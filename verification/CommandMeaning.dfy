/** What each engine command means, in its own fields, for the order it creates or changes: over whole runs. */
module CommandMeaning {
  import opened Orders
  import opened BookSpec
  import opened BookInvariants
  import opened Ledger
  import opened EngineSpec
  import opened EngineRuns
  import opened EngineLedger
  import opened OrderTerms
  import opened EntryQuantity
  import opened RunTerms
  import StopCascade

  // ----- where an order stands -----

  /** The order rests on this side, at this price and with these leaves, and nowhere else. */
  ghost predicate RestsAlone(b: Book, side: Side, price: int, id: nat, leaves: nat) {
    && (exists l, o | l in b.On(side) && o in l.queue :: o.id == id && l.price == price && o.leaves == leaves)
    && (forall s: Side, l, o | l in b.On(s) && o in l.queue && o.id == id ::
          s == side && l.price == price && o.leaves == leaves)
  }

  /** The order is on no level and waits for no trigger. */
  predicate Nowhere(b: Book, id: nat) {
    id !in LevelIds(b.bids) && id !in LevelIds(b.asks) && id !in IdsOf(b.pending) && id !in IdsOf(b.triggered)
  }

  lemma {:induction false} LeavesOfOne(queue: seq<OrderState>, o: OrderState)
    requires DistinctIds(queue) && o in queue
    ensures LeavesIn(queue, o.id) == o.leaves
  {
    FrontSplit(queue);
    if queue[0] == o {
      LeavesNone(queue[1..], o.id);
    } else {
      assert o in queue[1..] && o.id in IdsOf(queue[1..]);
      LeavesOfOne(queue[1..], o);
    }
  }

  /** The record of an id on a side has the leaves the side has for it. */
  lemma {:induction false} LeavesFound(side: Side, levels: seq<Level>, active: map<nat, Ref>, l: Level, o: OrderState)
    requires SideOk(side, levels, active) && l in levels && o in l.queue
    ensures LeavesOn(levels, o.id) == o.leaves
    decreases |levels|
  {
    hide Sorted;
    SideTail(side, levels, active);
    LevelsApart(side, levels, active);
    if l == levels[0] {
      assert o.id in IdsOf(l.queue);
      LeavesOfOne(l.queue, o);
      LevelsNone(levels[1..], o.id);
    } else {
      assert l in levels[1..] && o.id in LevelIds(levels[1..]);
      LeavesNone(levels[0].queue, o.id);
      LeavesFound(side, levels[1..], active, l, o);
    }
  }

  /** A resting record is as agreed, and has all that is outstanding. */
  lemma {:induction false} RestingRecord(w: Terms, b: Book, s: Side, l: Level, o: OrderState)
    requires Consistent(b) && BookHonours(w, b, []) && l in b.On(s) && o in l.queue && o.id == w.id
    ensures s == w.side && l.price == w.price && o.leaves == Outstanding(b, w.id) && Honours(w, o) && Sound(o)
    ensures !w.Fleeting() && (w.Alive() ==> 0 < o.leaves) && w.id !in IdsOf(b.pending)
  {
    hide Sorted, LeavesOn, LeavesIn, Lots;
    assert LevelOk(s, l, b.active) && RestHonoured(w, l.queue);
    assert b.On(Buy) == b.bids && b.On(Sell) == b.asks;
    SidesApart(b, []);
    StopsUnknown(b, []);
    assert o.id in LevelIds(b.On(s));
    LeavesFound(s, b.On(s), b.active, l, o);
    LevelsNone(b.On(s.Opposite()), w.id);
    LeavesNone(b.pending, w.id);
    LeavesNone([], w.id);
  }

  /** What is outstanding of an order that does not wait rests as agreed; if nothing is, the order is nowhere. */
  lemma {:induction false} WhereRests(w: Terms, b: Book)
    requires Consistent(b) && BookHonours(w, b, []) && w.Alive() && w.id !in IdsOf(b.pending)
    ensures 0 < Outstanding(b, w.id) ==> RestsAlone(b, w.side, w.price, w.id, Outstanding(b, w.id))
    ensures Outstanding(b, w.id) == 0 ==> Nowhere(b, w.id)
  {
    hide Sorted, LevelOk, LeavesOn, LeavesIn, Honours, BookHonours, LevelIds;
    assert b.On(Buy) == b.bids && b.On(Sell) == b.asks;
    forall s: Side, l, o | l in b.On(s) && o in l.queue && o.id == w.id
      ensures s == w.side && l.price == w.price && o.leaves == Outstanding(b, w.id) && 0 < o.leaves
    {
      RestingRecord(w, b, s, l, o);
    }
    LeavesNone(b.pending, w.id);
    LeavesNone([], w.id);
    IdOnLevel(b.bids, w.id);
    IdOnLevel(b.asks, w.id);
  }

  lemma {:induction false} IdOnLevel(levels: seq<Level>, id: nat)
    ensures id in LevelIds(levels) <==> exists l, o | l in levels && o in l.queue :: o.id == id
    ensures id !in LevelIds(levels) ==> LeavesOn(levels, id) == 0
  {
    if id !in LevelIds(levels) { LevelsNone(levels, id); }
  }

  // ----- a command in the middle of a run -----

  lemma {:induction false} InTheMiddle(before: seq<Command>, c: Command, after: seq<Command>)
    requires AllLegal(before + [c] + after)
    ensures var e, a := Run(NewEngine, before), RunAccounts(NewEngine, before, NoAccounts);
      && EngineOk(e) && 1 <= e.nextId && Accounted(e, a) && Legal(c) && AllLegal(after)
      && EngineOk(Step(e, c))
      && Run(NewEngine, before + [c] + after) == Run(Step(e, c), after)
      && RunAccounts(NewEngine, before + [c] + after, NoAccounts) == RunAccounts(Step(e, c), after, Booked(e, c, a))
  {
    hide Step, Booked, Run, RunAccounts, Accounted, EngineOk;
    var e, a := Run(NewEngine, before), RunAccounts(NewEngine, before, NoAccounts);
    LegalParts(before, c, after);
    assert before + [c] + after == before + ([c] + after);
    NewEngineOk();
    NothingTraded();
    RunOk(NewEngine, before);
    RunAccounted(NewEngine, before, NoAccounts);
    CounterGrows(NewEngine, before);
    StepOk(e, c);
    RunConcat(NewEngine, before, [c] + after);
    RunCons(e, c, after);
    AccountsConcat(NewEngine, before, [c] + after, NoAccounts);
    AccountsCons(e, c, after, a);
  }

  lemma LegalParts(before: seq<Command>, c: Command, after: seq<Command>)
    requires AllLegal(before + [c] + after)
    ensures AllLegal(before) && Legal(c) && AllLegal(after)
  {
    var all := before + [c] + after;
    assert all[|before|] == c && c in all;
    forall x | x in before ensures Legal(x) { assert x in all; }
    forall x | x in after ensures Legal(x) { assert x in all; }
  }

  // ----- what became of a limit order or a stop -----

  lemma {:induction false} WaitsWhole(w: Terms, b: Book)
    requires Consistent(b) && BookHonours(w, b, []) && w.id in IdsOf(b.pending)
    ensures Outstanding(b, w.id) >= w.quantity
  {
    hide Sorted, LevelOk, LeavesOn, LeavesIn, Lots;
    var o :| o in b.pending && o.id == w.id;
    LeavesOfOne(b.pending, o);
  }

  /** From its creation on: an order that loses nothing has traded the rest of its quantity. */
  lemma {:induction false} Fate(w: Terms, e: Engine, after: seq<Command>, a: Accounts)
    requires EngineOk(e) && AllLegal(after) && 1 <= e.nextId && Accounted(e, a)
    requires w.id in a.of && w.id < e.nextId && a.of[w.id].qty == w.quantity
    requires BookHonours(w, e.book, []) && Plain(w) && w.Alive()
    requires !Modifies(after, w.id) && !Cancels(after, w.id)
    requires a.of[w.id].lostSince <= |a.lost| && LostBy(a.lost[a.of[w.id].lostSince..], w.id) == 0
    ensures a.of[w.id].since <= |Run(e, after).book.trades|
    ensures var b := Run(e, after).book;
      var traded := TradedBy(b.trades[a.of[w.id].since..], w.id);
      && traded <= w.quantity
      && (w.id in IdsOf(b.pending) ==> traded == 0)
      && (w.id !in IdsOf(b.pending) ==>
            if traded < w.quantity then RestsAlone(b, w.side, w.price, w.id, w.quantity - traded) else Nowhere(b, w.id))
  {
    hide Run, RunAccounts, Outstanding, TradedBy, LostBy, BookHonours, Kept, RestsAlone, Nowhere, BookBelow, Numbered;
    var r, k := Run(e, after), a.of[w.id];
    RunOk(e, after);
    RunAccounted(e, after, a);
    AccountStays(e, after, a, w.id);
    RunHonours(w, e, after);
    RunLosesNothing(w, e, after, a, k.lostSince);
    assert Settled(r.book, k, RunAccounts(e, after, a).lost, w.id);
    if w.id in IdsOf(r.book.pending) { WaitsWhole(w, r.book); } else { WhereRests(w, r.book); }
  }

  /** A submit starts the account of its order, and with the order as agreed. */
  lemma {:induction false} SubmitStarts(w: Terms, e: Engine, a: Accounts, c: Command)
    requires EngineOk(e) && 1 <= e.nextId && Accounted(e, a) && Legal(c) && IsSubmit(c)
    requires w.id == e.nextId && Honours(w, OrderOf(c, w.id))
    ensures var e1, a1 := Step(e, c), Booked(e, c, a);
      && EngineOk(e1) && w.id < e1.nextId && Accounted(e1, a1) && BookHonours(w, e1.book, [])
      && Kept(w, e.book, e1.book, false)
      && (!c.SubmitStop? ==> w.id !in StopIds(e1.book, []))
      && w.id in a1.of && a1.of[w.id] == Account(OrderOf(c, w.id).quantity, 0, 0)
      && (Plain(w) ==> LostBy(a1.lost[0..], w.id) == 0)
  {
    hide Step, BookHonours, Kept, EngineOk, Honours, StepLost, LostBy, Settled, StopIds, TradedBy;
    UnbornHonours(w, e);
    StepOk(e, c);
    StepHonours(w, e, c);
    StepCounts(e, c);
    SubmitAccounted(e, c, a);
    SubmitOpens(e, c, a);
    if Plain(w) {
      StepLosesNothing(w, e, c);
      assert Unborn(e.book, a.lost, w.id);
      LostConcat(a.lost, StepLost(e, c), w.id);
      assert (a.lost + StepLost(e, c))[0..] == a.lost + StepLost(e, c);
    }
  }

  /** The trades of a run since the command at hand. */
  function Since(before: seq<Command>, c: Command, after: seq<Command>): seq<Trade> {
    var n, trades := |Run(NewEngine, before).book.trades|, Run(NewEngine, before + [c] + after).book.trades;
    if n <= |trades| then trades[n..] else []
  }

  lemma {:induction false} FateOfSubmit(w: Terms, before: seq<Command>, c: Command, after: seq<Command>)
    requires AllLegal(before + [c] + after) && IsSubmit(c) && w.id == Run(NewEngine, before).nextId
    requires Honours(w, OrderOf(c, w.id)) && OrderOf(c, w.id).quantity == w.quantity && Plain(w) && w.Alive()
    requires !Modifies(after, w.id) && !Cancels(after, w.id)
    ensures var b := Run(NewEngine, before + [c] + after).book;
      var traded := TradedBy(b.trades, w.id);
      && traded <= w.quantity
      && (w.id in IdsOf(b.pending) ==> traded == 0)
      && (w.id !in IdsOf(b.pending) ==>
            if traded < w.quantity then RestsAlone(b, w.side, w.price, w.id, w.quantity - traded) else Nowhere(b, w.id))
  {
    hide Run, Step, RunAccounts, Booked, Accounted, Honours, BookHonours, EngineOk, TradedBy, LostBy, RestsAlone,
         Nowhere;
    var e, a := Run(NewEngine, before), RunAccounts(NewEngine, before, NoAccounts);
    InTheMiddle(before, c, after);
    SubmitStarts(w, e, a, c);
    Fate(w, Step(e, c), after, Booked(e, c, a));
    var trades := Run(NewEngine, before + [c] + after).book.trades;
    assert trades[0..] == trades;
  }

  /**
    A limit order that is neither cancelled nor modified: in every later state of every run it rests on its side, at its
    price, with what it has not traded yet, and nowhere else; once it has traded all, it is nowhere.
   */
  lemma {:induction false} LimitFate(before: seq<Command>, side: Side, price: int, qty: nat, ts: int,
                                     after: seq<Command>)
    requires AllLegal(before + [SubmitLimit(side, price, qty, ts)] + after)
    requires var id := Run(NewEngine, before).nextId; !Modifies(after, id) && !Cancels(after, id)
    ensures var id, b := Run(NewEngine, before).nextId,
                         Run(NewEngine, before + [SubmitLimit(side, price, qty, ts)] + after).book;
      var traded := TradedBy(b.trades, id);
      && traded <= qty
      && (if traded < qty then RestsAlone(b, side, price, id, qty - traded) else Nowhere(b, id))
  {
    hide Run, TradedBy, RestsAlone, Nowhere, AllLegal;
    var c, id := SubmitLimit(side, price, qty, ts), Run(NewEngine, before).nextId;
    var w := Terms(id, side, Limit, price, qty, 0, false);
    FateOfSubmit(w, before, c, after);
    NotWaiting(w, before, c, after);
  }

  /** Only stops ever wait. */
  lemma {:induction false} NotWaiting(w: Terms, before: seq<Command>, c: Command, after: seq<Command>)
    requires AllLegal(before + [c] + after) && IsSubmit(c) && !c.SubmitStop? && w.id == Run(NewEngine, before).nextId
    requires Honours(w, OrderOf(c, w.id)) && !Modifies(after, w.id)
    ensures var b := Run(NewEngine, before + [c] + after).book;
      BookHonours(w, b, []) && w.id !in StopIds(b, [])
  {
    hide Run, Step, RunAccounts, Booked, Accounted, Honours, BookHonours, EngineOk, StopIds, LostBy;
    var e, a := Run(NewEngine, before), RunAccounts(NewEngine, before, NoAccounts);
    InTheMiddle(before, c, after);
    SubmitStarts(w, e, a, c);
    RunHonours(w, Step(e, c), after);
  }

  /**
    A stop that is neither cancelled nor modified: while it waits it has traded nothing; from its trigger on what it has
    not traded yet rests on its side at its limit price, and nowhere else, until it has traded all.
   */
  lemma {:induction false} StopFate(before: seq<Command>, side: Side, trigger: int, limit: int, qty: nat, ts: int,
                                    after: seq<Command>)
    requires AllLegal(before + [SubmitStop(side, trigger, limit, qty, ts)] + after)
    requires var id := Run(NewEngine, before).nextId; !Modifies(after, id) && !Cancels(after, id)
    ensures var id, b := Run(NewEngine, before).nextId,
                         Run(NewEngine, before + [SubmitStop(side, trigger, limit, qty, ts)] + after).book;
      var traded := TradedBy(b.trades, id);
      && traded <= qty
      && (id in IdsOf(b.pending) ==> traded == 0)
      && (id !in IdsOf(b.pending) ==>
            if traded < qty then RestsAlone(b, side, limit, id, qty - traded) else Nowhere(b, id))
  {
    hide Run, TradedBy, RestsAlone, Nowhere, AllLegal;
    var c, id := SubmitStop(side, trigger, limit, qty, ts), Run(NewEngine, before).nextId;
    FateOfSubmit(Terms(id, side, StopLoss, limit, qty, 0, false), before, c, after);
  }

  // ----- prices -----

  /** Every trade since its submit keeps the order to its side and to the prices it accepts, cancelled later or not. */
  lemma {:induction false} TradesOfSubmit(w: Terms, before: seq<Command>, c: Command, after: seq<Command>)
    requires AllLegal(before + [c] + after) && IsSubmit(c) && w.id == Run(NewEngine, before).nextId
    requires Honours(w, OrderOf(c, w.id)) && !Modifies(after, w.id)
    ensures TradesHonour(w, Since(before, c, after))
    ensures Run(NewEngine, before).book.trades <= Run(NewEngine, before + [c] + after).book.trades
  {
    hide Run, Step, RunAccounts, Booked, Accounted, Honours, BookHonours, EngineOk, StopIds, LostBy, TradesHonour;
    var e, a := Run(NewEngine, before), RunAccounts(NewEngine, before, NoAccounts);
    InTheMiddle(before, c, after);
    SubmitStarts(w, e, a, c);
    var e1 := Step(e, c);
    RunHonours(w, e1, after);
    KeptWeaker(w, e1.book, Run(e1, after).book, w.id !in StopIds(e1.book, []), false);
    KeptTrans(w, e.book, e1.book, Run(e1, after).book, false);
  }

  /**
    Whatever happens to it short of a modify, an order trades on its own side only; a limit order and an iceberg never
    at a price worse than their own, a stop never at one worse than its limit - as aggressor or resting.
   */
  lemma {:induction false} PricesKept(before: seq<Command>, c: Command, after: seq<Command>, t: Trade)
    requires AllLegal(before + [c] + after) && IsSubmit(c) && !Modifies(after, Run(NewEngine, before).nextId)
    requires t in Since(before, c, after)
    ensures var id := Run(NewEngine, before).nextId;
      && (t.buyId == id ==>
            && c.side.Buy?
            && (c.SubmitLimit? ==> t.price <= c.price) && (c.SubmitIceberg? ==> t.price <= c.price)
            && (c.SubmitStop? ==> t.price <= c.limit))
      && (t.sellId == id ==>
            && c.side.Sell?
            && (c.SubmitLimit? ==> t.price >= c.price) && (c.SubmitIceberg? ==> t.price >= c.price)
            && (c.SubmitStop? ==> t.price >= c.limit))
  {
    hide Run, AllLegal, Since;
    var id := Run(NewEngine, before).nextId;
    var w := TermsOf(c, id);
    LegalParts(before, c, after);
    TermsHonoured(c, id);
    TradesOfSubmit(w, before, c, after);
  }

  function TermsOf(c: Command, id: nat): Terms
    requires IsSubmit(c)
  {
    match c
    case SubmitLimit(side, price, qty, _) => Terms(id, side, Limit, price, qty, 0, false)
    case SubmitMarket(side, qty, _) => Terms(id, side, Market, 0, qty, 0, false)
    case SubmitIceberg(side, price, total, display, _) => Terms(id, side, Iceberg, price, total, display, false)
    case SubmitStop(side, _, limit, qty, _) => Terms(id, side, StopLoss, limit, qty, 0, false)
  }

  lemma {:induction false} TermsHonoured(c: Command, id: nat)
    requires IsSubmit(c) && Legal(c)
    ensures Honours(TermsOf(c, id), OrderOf(c, id))
  {
    if c.SubmitIceberg? && 0 < c.display { RemainderIs(0, 0, 0, c.display); }
  }

  // ----- on entry -----

  /** A run up to a submit, and the state the new order is matched in. */
  lemma {:induction false} AtSubmit(before: seq<Command>, c: Command)
    requires AllLegal(before + [c]) && IsSubmit(c)
    ensures var e := Run(NewEngine, before);
      && EngineOk(e) && 1 <= e.nextId && Legal(c) && Run(NewEngine, before + [c]) == Step(e, c)
      && Fresh(OrderOf(c, e.nextId)) && Unused(e.book, [], e.nextId) && OrderOf(c, e.nextId).id == e.nextId
  {
    hide Run, EngineOk, Step;
    var e := Run(NewEngine, before);
    assert before + [c] + [] == before + [c];
    InTheMiddle(before, c, []);
    RunNothing(Step(e, c));
    SubmitReady(e, c);
  }

  lemma {:induction false} RunNothing(e: Engine)
    ensures Run(e, []) == e
  {
  }

  /** The length of the history when the sweep of the order that `c` creates has ended and no stop has run yet. */
  function EntryEnd(before: seq<Command>, c: Command): nat
    requires IsSubmit(c)
  {
    var e := Run(NewEngine, before);
    OwnEnd(e.book, OrderOf(c, e.nextId))
  }

  /**
    A limit, market or iceberg order trades at once, under its own timestamp and on its own side, the smaller of its
    quantity and all that shows on the other side - for a market order whatever the prices, else within its price.
   */
  lemma {:induction false} EntryTakes(before: seq<Command>, c: Command)
    requires AllLegal(before + [c]) && IsSubmit(c) && !c.SubmitStop?
    ensures var e, r, m := Run(NewEngine, before), Run(NewEngine, before + [c]), EntryEnd(before, c);
      && |e.book.trades| <= m <= |r.book.trades|
      && var own, opp := r.book.trades[|e.book.trades|..m], e.book.On(c.side.Opposite());
         && (forall t | t in own ::
               (if c.side.Buy? then t.buyId else t.sellId) == e.nextId && t.timestamp == c.timestamp)
         && (c.SubmitLimit? ==> TradedBy(own, e.nextId) == Min(c.qty, ShownWithin(c.side, Limit, c.price, opp)))
         && (c.SubmitMarket? ==> TradedBy(own, e.nextId) == Min(c.qty, ShownWithin(c.side, Market, 0, opp)))
         && (c.SubmitIceberg? ==> TradedBy(own, e.nextId) == Min(c.total, ShownWithin(c.side, Iceberg, c.price, opp)))
  {
    hide Run, MatchOne, Cascade, TradedBy, ConsistentWith, ShownWithin, AllLegal, BookBelow, Numbered;
    var e := Run(NewEngine, before);
    var b, o := e.book, OrderOf(c, e.nextId);
    AtSubmit(before, c);
    OwnSweep(b, [], o);
    var b1 := MatchOne(b, o);
    CascadeGrows(b1);
    assert Match(b, o) == Cascade(b1);
    assert Cascade(b1).trades[|b.trades|..|b1.trades|] == b1.trades[|b.trades|..];
  }

  lemma {:induction false} CascadeGrows(b: Book)
    ensures b.trades <= Cascade(b).trades
  {
    StopCascade.CascadeFollows(b);
  }

  // ----- market orders -----

  /** A market order is done when its command ends: in every later state it is nowhere, and no index knows it. */
  lemma {:induction false} MarketNeverRests(before: seq<Command>, side: Side, qty: nat, ts: int, after: seq<Command>)
    requires AllLegal(before + [SubmitMarket(side, qty, ts)] + after)
    ensures var id, b := Run(NewEngine, before).nextId,
                         Run(NewEngine, before + [SubmitMarket(side, qty, ts)] + after).book;
      Nowhere(b, id) && id !in b.active
  {
    hide Run, Step, RunAccounts, Booked, Accounted, BookHonours, EngineOk, StopIds, LostBy, Nowhere;
    var c, e, a := SubmitMarket(side, qty, ts), Run(NewEngine, before), RunAccounts(NewEngine, before, NoAccounts);
    var w := Terms(e.nextId, side, Market, 0, qty, 0, false);
    InTheMiddle(before, c, after);
    SubmitStarts(w, e, a, c);
    RunWithoutMarket(w, Step(e, c), after);
    MarketNowhere(w, Run(Step(e, c), after).book);
  }

  lemma {:induction false} MarketNowhere(w: Terms, b: Book)
    requires BookHonours(w, b, []) && w.Fleeting() && w.id !in StopIds(b, [])
    ensures Nowhere(b, w.id) && w.id !in b.active
  {
    hide Honours;
    forall l, o | l in b.bids && o in l.queue ensures o.id != w.id { assert RestHonoured(w, l.queue); }
    forall l, o | l in b.asks && o in l.queue ensures o.id != w.id { assert RestHonoured(w, l.queue); }
  }

  /**
    A market order trades, in its own command, the smaller of its quantity and all that shows on the other side; on a
    clean book that is all that rests there.
   */
  lemma {:induction false} MarketTakes(before: seq<Command>, side: Side, qty: nat, ts: int)
    requires AllLegal(before + [SubmitMarket(side, qty, ts)])
    ensures var e, r := Run(NewEngine, before), Run(NewEngine, before + [SubmitMarket(side, qty, ts)]);
      && e.book.trades <= r.book.trades
      && var traded, opp := TradedBy(r.book.trades[|e.book.trades|..], e.nextId), e.book.On(side.Opposite());
         && traded == Min(qty, ShownWithin(side, Market, 0, opp))
         && (CleanBook(e.book) ==> traded == Min(qty, AllLeaves(opp)))
  {
    hide Run, MatchOne, Cascade, TradedBy, ConsistentWith, ShownWithin, AllLegal, AllLeaves, CleanLevels, BookBelow,
         Numbered, BookHonours, Kept, StopIds;
    var c, e := SubmitMarket(side, qty, ts), Run(NewEngine, before);
    var b, o := e.book, OrderOf(c, e.nextId);
    var w := Terms(e.nextId, side, Market, 0, qty, 0, false);
    AtSubmit(before, c);
    OwnSweep(b, [], o);
    var b1 := MatchOne(b, o);
    UnbornHonours(w, e);
    MatchOneOk(b, [], o);
    MatchOneHonours(w, b, [], o);
    assert StopIds(b1, []) == StopIds(b, []);
    MarketNowhere(w, b1);
    CascadeIgnores(b1, w.id);
    var r := Cascade(b1);
    assert Match(b, o) == r;
    assert r.trades[|b.trades|..] == b1.trades[|b.trades|..] + r.trades[|b1.trades|..];
    TradedConcat(b1.trades[|b.trades|..], r.trades[|b1.trades|..], w.id);
    if CleanBook(b) { CleanShowsAll(side, 0, b.On(side.Opposite())); }
  }

  /** Who is nowhere takes no part in a cascade. */
  lemma {:induction false} CascadeIgnores(b: Book, id: nat)
    requires ConsistentWith(b, []) && Nowhere(b, id)
    ensures b.trades <= Cascade(b).trades && TradedBy(Cascade(b).trades[|b.trades|..], id) == 0
  {
    hide Cascade, ConsistentWith, LeavesOn, LeavesIn, TradedBy, LostBy;
    CascadeLedger(b, id);
    LevelsNone(b.bids, id);
    LevelsNone(b.asks, id);
    LeavesNone(b.pending, id);
    LeavesNone(b.triggered, id);
  }

  // ----- icebergs -----

  lemma {:induction false} BalanceOfSubmit(before: seq<Command>, c: Command, after: seq<Command>)
    requires AllLegal(before + [c] + after) && IsSubmit(c) && !Modifies(after, Run(NewEngine, before).nextId)
    ensures var id, b := Run(NewEngine, before).nextId, Run(NewEngine, before + [c] + after).book;
      && Consistent(b)
      && (id in PlacedIds(b, []) ==> OrderOf(c, id).quantity == Outstanding(b, id) + TradedBy(b.trades, id))
  {
    hide Run, Step, RunAccounts, Booked, TradedBy, LostBy, Outstanding, PlacedIds, BookBelow, Numbered;
    var e, a := Run(NewEngine, before), RunAccounts(NewEngine, before, NoAccounts);
    InTheMiddle(before, c, after);
    var e1, a1 := Step(e, c), Booked(e, c, a);
    SubmitAccounted(e, c, a);
    SubmitOpens(e, c, a);
    RunOk(e1, after);
    RunAccounted(e1, after, a1);
    AccountStays(e1, after, a1, e.nextId);
    var trades := Run(e1, after).book.trades;
    assert trades[0..] == trades;
    assert Settled(Run(e1, after).book, a1.of[e.nextId], RunAccounts(e1, after, a1).lost, e.nextId);
  }

  /**
    An iceberg that nobody modifies, wherever it rests in any later state: it is on its side and at its price with what
    it has not traded; it never shows more than its display; what it shows is the rest of the lot its trades have
    reached, lots being as large as the display; and a lot that is used up comes back in full while quantity lasts.
   */
  lemma {:induction false} IcebergShows(before: seq<Command>, side: Side, price: int, total: nat, display: nat, ts: int,
                                        after: seq<Command>, s: Side, l: Level, o: OrderState)
    requires AllLegal(before + [SubmitIceberg(side, price, total, display, ts)] + after)
    requires !Modifies(after, Run(NewEngine, before).nextId)
    requires l in Run(NewEngine, before + [SubmitIceberg(side, price, total, display, ts)] + after).book.On(s)
    requires o in l.queue && o.id == Run(NewEngine, before).nextId
    ensures var b := Run(NewEngine, before + [SubmitIceberg(side, price, total, display, ts)] + after).book;
      var traded, shown := TradedBy(b.trades, o.id), o.VisibleQty();
      && s == side && l.price == price && traded + o.leaves == total
      && shown <= display
      && (0 < shown ==> shown == Min(display - traded % display, total - traded))
      && (0 < shown < o.leaves ==> Traded(o, shown).VisibleQty() == Min(display, total - traded - shown))
  {
    hide Run, TradedBy, BookHonours, Outstanding, PlacedIds, ConsistentWith, AllLegal;
    var c, id := SubmitIceberg(side, price, total, display, ts), Run(NewEngine, before).nextId;
    var b, w := Run(NewEngine, before + [c] + after).book, Terms(id, side, Iceberg, price, total, display, false);
    LegalParts(before, c, after);
    TermsHonoured(c, id);
    BalanceOfSubmit(before, c, after);
    NotWaiting(w, before, c, after);
    RestingRecord(w, b, s, l, o);
    RestingPlaced(b, s, l, o);
    if 0 < o.display { LotUsedUp(o, display); }
  }

  lemma RestingPlaced(b: Book, s: Side, l: Level, o: OrderState)
    requires l in b.On(s) && o in l.queue
    ensures o.id in PlacedIds(b, [])
  {
  }

  lemma LotUsedUp(o: OrderState, lot: nat)
    requires Sound(o) && o.kind.Iceberg? && Lots(o, lot) && 0 < o.display
    ensures o.display <= lot
    ensures o.display < o.leaves ==> Traded(o, o.display).VisibleQty() == Min(lot, o.leaves - o.display)
  {
  }

  /**
    Once its own sweep has ended, a limit order or an iceberg only rests: until somebody modifies it each of its trades
    is at exactly its price, and an iceberg's is for at most its display.
   */
  lemma {:induction false} RestingTrades(before: seq<Command>, c: Command, after: seq<Command>, i: nat)
    requires AllLegal(before + [c] + after) && (c.SubmitLimit? || c.SubmitIceberg?)
    requires !Modifies(after, Run(NewEngine, before).nextId)
    requires EntryEnd(before, c) <= i < |Run(NewEngine, before + [c] + after).book.trades|
    ensures var id, t := Run(NewEngine, before).nextId, Run(NewEngine, before + [c] + after).book.trades[i];
      t.buyId == id || t.sellId == id ==> t.price == c.price && (c.SubmitIceberg? ==> t.qty <= c.display)
  {
    hide Run, MatchOne, Cascade, ConsistentWith, AllLegal, BookHonours, StopIds, BookBelow, Numbered, Honours;
    var e := Run(NewEngine, before);
    var w, b, o := TermsOf(c, e.nextId), e.book, OrderOf(c, e.nextId);
    InTheMiddle(before, c, after);
    TermsHonoured(c, e.nextId);
    SubmitReady(e, c);
    UnbornHonours(w, e);
    var b1 := MatchOne(b, o);
    MatchOneOk(b, [], o);
    MatchOneHonours(w, b, [], o);
    CascadeHonours(w, b1);
    assert Step(e, c).book == Cascade(b1);
    StopsShrink(w, b, b1, Cascade(b1));
    RunHonours(w, Step(e, c), after);
    var r := Run(Step(e, c), after).book;
    KeptTrans(w, b1, Cascade(b1), r, true);
    assert r.trades[i] == r.trades[|b1.trades|..][i - |b1.trades|];
  }

  lemma StopsShrink(w: Terms, b: Book, b1: Book, b2: Book)
    requires w.id !in StopIds(b, []) && StopIds(b1, []) == StopIds(b, []) && StopIds(b2, []) <= StopIds(b1, [])
    ensures w.id !in StopIds(b1, []) && w.id !in StopIds(b2, [])
  {
  }
}
