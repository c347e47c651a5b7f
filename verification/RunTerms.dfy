/** Whole runs keep every order to its terms, from the command that created it on. */
module RunTerms {
  import opened Orders
  import opened BookSpec
  import opened BookInvariants
  import opened Ledger
  import opened EngineSpec
  import opened EngineRuns
  import opened EngineLedger
  import opened OrderTerms

  // ----- one command -----

  lemma {:induction false} WithoutHonours(w: Terms, queue: seq<OrderState>, id: nat)
    requires RestHonoured(w, queue)
    ensures RestHonoured(w, Without(queue, id))
  {
    hide Honours;
    if queue != [] {
      assert queue[0] in queue && forall o | o in queue[1..] :: o in queue;
      WithoutHonours(w, queue[1..], id);
    }
  }

  lemma {:induction false} RemoveHonours(w: Terms, levels: seq<Level>, price: int, id: nat)
    requires LevelsHonour(w, levels)
    ensures LevelsHonour(w, RemoveOrder(levels, price, id))
    decreases |levels|
  {
    hide RestHonoured, LevelsHonour, Without;
    if levels != [] {
      var l, rest := levels[0], levels[1..];
      assert levels == [l] + rest;
      LevelsHonourCons(w, l, rest);
      if l.price == price {
        WithoutHonours(w, l.queue, id);
        LevelsHonourCons(w, Level(price, Without(l.queue, id)), rest);
      } else {
        RemoveHonours(w, rest, price, id);
        LevelsHonourCons(w, l, RemoveOrder(rest, price, id));
      }
    }
  }

  lemma {:induction false} CancelHonours(w: Terms, b: Book, id: nat)
    requires BookHonours(w, b, [])
    ensures BookHonours(w, Cancel(b, id), []) && Cancel(b, id).trades == b.trades
    ensures Cancel(b, id).pending == b.pending && Cancel(b, id).triggered == b.triggered
  {
    hide LevelsHonour, RestHonoured, RemoveOrder;
    if id in b.active { RemoveHonours(w, b.On(b.active[id].side), b.active[id].price, id); }
  }

  lemma {:induction false} ModifyHonours(w: Terms, b: Book, id: nat, newPrice: int, newQty: nat, ts: int)
    requires BookHonours(w, b, [])
    requires id in b.active ==>
               RestHonoured(w, [PlainOrder(id, ts, b.active[id].side, b.active[id].kind, newPrice, newQty)])
    ensures var r := Modify(b, id, newPrice, newQty, ts);
      BookHonours(w, r, []) && r.trades == b.trades && r.pending == b.pending && r.triggered == b.triggered
  {
    hide LevelsHonour, RestHonoured, Cancel, AddOrder;
    CancelHonours(w, b, id);
    if id in b.active {
      var r := b.active[id];
      AddOrderHonours(w, r.side, Cancel(b, id).On(r.side), PlainOrder(id, ts, r.side, r.kind, newPrice, newQty));
    }
  }

  lemma OthersHonour(w: Terms, o: OrderState)
    requires o.id != w.id
    ensures RestHonoured(w, [o])
  {
  }

  /** Before an id is given, nobody has it. */
  lemma {:induction false} UnbornHonours(w: Terms, e: Engine)
    requires EngineOk(e) && e.nextId <= w.id
    ensures BookHonours(w, e.book, []) && w.id !in StopIds(e.book, []) && w.id !in e.book.active
  {
    hide Honours, Sorted;
    assert e.book.On(Buy) == e.book.bids && e.book.On(Sell) == e.book.asks;
    SidesApart(e.book, []);
    forall l, o | l in e.book.bids && o in l.queue ensures o.id != w.id { assert o.id in LevelIds(e.book.bids); }
    forall l, o | l in e.book.asks && o in l.queue ensures o.id != w.id { assert o.id in LevelIds(e.book.asks); }
    HonoursOthers(w);
  }

  lemma HonoursOthers(w: Terms)
    ensures forall o: OrderState | o.id != w.id :: Honours(w, o)
  {
  }

  /** A submit of this id creates the order meant, and the command does not modify it. */
  predicate KeepsTo(w: Terms, e: Engine, c: Command) {
    && (IsSubmit(c) && e.nextId == w.id ==> Honours(w, OrderOf(c, w.id)))
    && !(c.ModifyOrder? && c.id == w.id && w.id in e.book.active)
  }

  /** The order can only rest: it is not this command's, and waits for no trigger. */
  predicate OnlyRests(w: Terms, e: Engine, c: Command) {
    !(IsSubmit(c) && e.nextId == w.id) && w.id !in StopIds(e.book, [])
  }

  lemma {:induction false} StepHonours(w: Terms, e: Engine, c: Command)
    requires EngineOk(e) && Legal(c) && BookHonours(w, e.book, []) && KeepsTo(w, e, c)
    ensures BookHonours(w, Step(e, c).book, []) && Kept(w, e.book, Step(e, c).book, OnlyRests(w, e, c))
    ensures StopIds(Step(e, c).book, []) <= StopIds(e.book, []) + if c.SubmitStop? then {e.nextId} else {}
  {
    hide Match, Cancel, Modify, BookHonours, Kept, Honours, ConsistentWith;
    var b := e.book;
    match c
    case CancelOrder(id) =>
      CancelHonours(w, b, id);
      KeptRefl(w, b, Cancel(b, id), OnlyRests(w, e, c));
    case ModifyOrder(id, newPrice, newQty, ts) =>
      if id in b.active { OthersHonour(w, PlainOrder(id, ts, b.active[id].side, b.active[id].kind, newPrice, newQty)); }
      ModifyHonours(w, b, id, newPrice, newQty, ts);
      KeptRefl(w, b, Modify(b, id, newPrice, newQty, ts), OnlyRests(w, e, c));
    case _ =>
      var o := OrderOf(c, e.nextId);
      SubmitReady(e, c);
      if e.nextId != w.id { OtherHonours(w, o); }
      MatchHonours(w, b, o);
      KeptWeaker(w, b, Match(b, o), o.id != w.id && w.id !in StopIds(b, []), OnlyRests(w, e, c));
  }

  lemma OtherHonours(w: Terms, o: OrderState)
    requires o.id != w.id
    ensures Honours(w, o)
  {
  }

  // ----- whole runs -----

  /** After its submit the order is kept to its terms as long as nobody modifies it. */
  lemma {:induction false} RunHonours(w: Terms, e: Engine, cs: seq<Command>)
    requires EngineOk(e) && AllLegal(cs) && BookHonours(w, e.book, []) && w.id < e.nextId && !Modifies(cs, w.id)
    ensures BookHonours(w, Run(e, cs).book, [])
    ensures Kept(w, e.book, Run(e, cs).book, w.id !in StopIds(e.book, []))
    ensures w.id !in StopIds(e.book, []) ==> w.id !in StopIds(Run(e, cs).book, [])
    decreases |cs|
  {
    hide Step, BookHonours, Kept, StopIds, EngineOk, Honours;
    var rests := w.id !in StopIds(e.book, []);
    if cs == [] {
      KeptRefl(w, e.book, e.book, rests);
    } else {
      var c, e1 := cs[0], Step(e, cs[0]);
      assert c in cs;
      StepOk(e, c);
      StepHonours(w, e, c);
      StepCounts(e, c);
      assert !Modifies(cs[1..], w.id);
      RunHonours(w, e1, cs[1..]);
      KeptWeaker(w, e1.book, Run(e, cs).book, w.id !in StopIds(e1.book, []), rests);
      KeptTrans(w, e.book, e1.book, Run(e, cs).book, rests);
    }
  }

  lemma StepCounts(e: Engine, c: Command)
    ensures Step(e, c).nextId == e.nextId + if IsSubmit(c) then 1 else 0
  {
    hide Match, Cancel, Modify;
  }

  /** A market order is never on a level, so nothing can be done to it later. */
  lemma {:induction false} RunWithoutMarket(w: Terms, e: Engine, cs: seq<Command>)
    requires EngineOk(e) && AllLegal(cs) && BookHonours(w, e.book, []) && w.id < e.nextId
    requires w.Fleeting() && w.id !in StopIds(e.book, [])
    ensures BookHonours(w, Run(e, cs).book, []) && w.id !in StopIds(Run(e, cs).book, [])
    decreases |cs|
  {
    hide Step, Kept, StopIds, EngineOk, Honours, LevelsHonour, QueueHonours;
    if cs != [] {
      assert cs[0] in cs;
      StepOk(e, cs[0]);
      StepHonours(w, e, cs[0]);
      StepCounts(e, cs[0]);
      RunWithoutMarket(w, Step(e, cs[0]), cs[1..]);
    }
  }

  predicate Cancels(cs: seq<Command>, id: nat) {
    exists c | c in cs :: c.CancelOrder? && c.id == id
  }

  lemma {:induction false} StepLosesNothing(w: Terms, e: Engine, c: Command)
    requires EngineOk(e) && Legal(c) && BookHonours(w, e.book, []) && KeepsTo(w, e, c) && Plain(w)
    requires !(c.CancelOrder? && c.id == w.id)
    ensures LostBy(StepLost(e, c), w.id) == 0
  {
    hide BookHonours, Honours, ConsistentWith, LostIn, Outstanding;
    match c
    case CancelOrder(id) =>
      LostSingle(Lost(id, Outstanding(e.book, id)), w.id);
    case ModifyOrder(_, _, _, _) =>
    case _ =>
      var o := OrderOf(c, e.nextId);
      SubmitReady(e, c);
      if e.nextId != w.id { OtherHonours(w, o); }
      MatchLosesNothing(w, e.book, o);
  }

  /** A limit order or a stop that nobody cancels or modifies loses nothing. */
  lemma {:induction false} RunLosesNothing(w: Terms, e: Engine, cs: seq<Command>, a: Accounts, k: nat)
    requires EngineOk(e) && AllLegal(cs) && BookHonours(w, e.book, []) && w.id < e.nextId && Plain(w)
    requires !Modifies(cs, w.id) && !Cancels(cs, w.id)
    requires k <= |a.lost| && LostBy(a.lost[k..], w.id) == 0
    ensures var lost := RunAccounts(e, cs, a).lost; k <= |lost| && LostBy(lost[k..], w.id) == 0
    decreases |cs|
  {
    hide Step, BookHonours, Kept, EngineOk, Honours, StepLost, LostBy, StopIds;
    if cs != [] {
      var c, e1, a1 := cs[0], Step(e, cs[0]), Booked(e, cs[0], a);
      assert c in cs;
      StepOk(e, c);
      StepHonours(w, e, c);
      StepCounts(e, c);
      StepLosesNothing(w, e, c);
      assert a1.lost[k..] == a.lost[k..] + StepLost(e, c);
      LostConcat(a.lost[k..], StepLost(e, c), w.id);
      assert !Modifies(cs[1..], w.id) && !Cancels(cs[1..], w.id);
      RunLosesNothing(w, e1, cs[1..], a1, k);
    }
  }
}
