/** What a cancel and a modify mean, in the command's own fields, at once and over whole runs. */
module ModifyMeaning {
  import opened Orders
  import opened BookSpec
  import opened BookInvariants
  import opened Ledger
  import opened CancelRoundTrip
  import opened EngineSpec
  import opened EngineRuns
  import opened EngineLedger
  import opened OrderTerms
  import opened RunTerms
  import opened CommandMeaning

  lemma {:induction false} AtCommand(before: seq<Command>, c: Command)
    requires AllLegal(before) && Legal(c)
    ensures EngineOk(Run(NewEngine, before)) && Run(NewEngine, before + [c]) == Step(Run(NewEngine, before), c)
  {
    hide Run, Step, EngineOk;
    NewEngineOk();
    RunOk(NewEngine, before);
    RunConcat(NewEngine, before, [c]);
    RunCons(Run(NewEngine, before), c, []);
    assert [c] + [] == [c];
    RunNothing(Step(Run(NewEngine, before), c));
  }

  function ModifiedTerms(b: Book, id: nat, p: int, q: nat): Terms
    requires id in b.active
  {
    Terms(id, b.active[id].side, b.active[id].kind, p, q, 0, true)
  }

  /** Once modified, the order is as the modify asked. */
  lemma {:induction false} ModifyAgrees(e: Engine, id: nat, p: int, q: nat, ts: int)
    requires EngineOk(e) && id in e.book.active
    ensures var w, r := ModifiedTerms(e.book, id, p, q), Modify(e.book, id, p, q, ts);
      BookHonours(w, r, []) && id !in StopIds(r, []) && Consistent(r)
  {
    hide Sorted, AddOrder, RemoveOrder, Honours, LevelOk, Sound;
    var b, w, ref := e.book, ModifiedTerms(e.book, id, p, q), e.book.active[id];
    var c, o := Cancel(b, id), PlainOrder(id, ts, ref.side, ref.kind, p, q);
    StopsUnknown(b, []);
    CancelOk(b, id);
    ModifyOk(b, id, p, q, ts);
    GoneHonours(w, c);
    NewTermsHonoured(w, o);
    AddOrderHonours(w, ref.side, c.On(ref.side), o);
  }

  lemma NewTermsHonoured(w: Terms, o: OrderState)
    requires o == PlainOrder(w.id, o.timestamp, w.side, w.kind, w.price, w.quantity) && w.display == 0 && w.modified
    ensures RestHonoured(w, [o])
  {
  }

  /** Nobody has an id that the index does not know and that does not wait. */
  lemma {:induction false} GoneHonours(w: Terms, b: Book)
    requires Consistent(b) && w.id !in b.active && w.id !in IdsOf(b.pending)
    ensures BookHonours(w, b, [])
  {
    hide Sorted, Honours;
    HonoursOthers(w);
    assert b.On(Buy) == b.bids && b.On(Sell) == b.asks;
    SidesApart(b, []);
    forall l, o | l in b.bids && o in l.queue ensures o.id != w.id { assert o.id in LevelIds(b.bids); }
    forall l, o | l in b.asks && o in l.queue ensures o.id != w.id { assert o.id in LevelIds(b.asks); }
  }

  /**
    A modify of a known order, at once: the order stands last on the level of the new price on its old side, with the
    new quantity and time, and nowhere else; everybody else keeps the place it has, nothing trades, the index follows.
   */
  lemma {:induction false} ModifyMeans(before: seq<Command>, id: nat, p: int, q: nat, ts: int)
    requires AllLegal(before) && id in Run(NewEngine, before).book.active
    ensures var e, r := Run(NewEngine, before), Run(NewEngine, before + [ModifyOrder(id, p, q, ts)]);
      var ref := e.book.active[id];
      && LastAt(r.book.On(ref.side), p, id, q, ts) && RestsAlone(r.book, ref.side, p, id, q)
      && (forall s: Side :: Without(Ranked(r.book.On(s)), id) == Without(Ranked(e.book.On(s)), id))
      && r.book.trades == e.book.trades && r.book.pending == e.book.pending && r.nextId == e.nextId
      && r.book.active == e.book.active[id := Ref(ref.side, ref.kind, p)]
  {
    hide Run, Sorted, LevelOk, LastAt, AllLegal, BookHonours, Outstanding, Ranked, Without, LevelIds;
    var e, c := Run(NewEngine, before), ModifyOrder(id, p, q, ts);
    var w, r, ref := ModifiedTerms(e.book, id, p, q), Modify(e.book, id, p, q, ts), e.book.active[id];
    AtCommand(before, c);
    ModifiedLast(e.book, id, p, q, ts);
    ModifyAgrees(e, id, p, q, ts);
    OutstandingAfter(e, c);
    forall s: Side, l, o | l in r.On(s) && o in l.queue && o.id == id
      ensures s == ref.side && l.price == p && o.leaves == q
    {
      RestingRecord(w, r, s, l, o);
    }
    FromLast(r, ref.side, p, id, q, ts);
    forall s: Side ensures Without(Ranked(r.On(s)), id) == Without(Ranked(e.book.On(s)), id) {
      ModifyKeepsOthers(e.book, id, p, q, ts, s);
    }
    ModifyIndex(e.book, id, p, q, ts);
  }

  lemma FromLast(b: Book, side: Side, p: int, id: nat, q: nat, ts: int)
    requires LastAt(b.On(side), p, id, q, ts)
    ensures exists l, o | l in b.On(side) && o in l.queue :: o.id == id && l.price == p && o.leaves == q
  {
    var l :| l in b.On(side) && l.price == p && l.queue != [] &&
      l.queue[|l.queue| - 1].id == id && l.queue[|l.queue| - 1].leaves == q;
    assert l.queue[|l.queue| - 1] in l.queue;
  }

  lemma ModifyIndex(b: Book, id: nat, p: int, q: nat, ts: int)
    requires id in b.active
    ensures var r := Modify(b, id, p, q, ts);
      r.active == b.active[id := Ref(b.active[id].side, b.active[id].kind, p)] && r.pending == b.pending
  {
    hide AddOrder, RemoveOrder;
  }

  lemma OutstandingAfter(e: Engine, c: Command)
    requires EngineOk(e) && c.ModifyOrder? && c.id in e.book.active
    ensures Outstanding(Step(e, c).book, c.id) == c.newQty
  {
    hide Outstanding, Cancel, AddToBook;
    ModifyLedger(e.book, c.id, c.newPrice, c.newQty, c.timestamp, c.id);
  }

  /** A cancel of a known order: it is on no level and in no index, everybody else keeps the place it has. */
  lemma {:induction false} CancelMeans(before: seq<Command>, id: nat)
    requires AllLegal(before) && id in Run(NewEngine, before).book.active
    ensures var e, r := Run(NewEngine, before), Run(NewEngine, before + [CancelOrder(id)]);
      && Nowhere(r.book, id) && r.book.active == e.book.active - {id}
      && (forall s: Side :: Ranked(r.book.On(s)) == Without(Ranked(e.book.On(s)), id))
      && r.book.trades == e.book.trades && r.book.pending == e.book.pending && r.nextId == e.nextId
  {
    hide Run, Sorted, LevelOk, AllLegal, Ranked, Without, LevelIds, RemoveOrder;
    var e := Run(NewEngine, before);
    AtCommand(before, CancelOrder(id));
    CancelOk(e.book, id);
    StopsUnknown(e.book, []);
    SidesApart(Cancel(e.book, id), []);
    var r := Cancel(e.book, id);
    assert r.On(Buy) == r.bids && r.On(Sell) == r.asks;
    forall s: Side ensures Ranked(Cancel(e.book, id).On(s)) == Without(Ranked(e.book.On(s)), id) {
      CancelKeepsOthers(e.book, id, s);
    }
  }

  /** A cancel or a modify of an id that is not known changes nothing at all. */
  lemma {:induction false} UnknownChangesNothing(e: Engine, id: nat, p: int, q: nat, ts: int)
    requires id !in e.book.active
    ensures Step(e, CancelOrder(id)) == e && Step(e, ModifyOrder(id, p, q, ts)) == e
  {
  }

  /**
    A modified order that is left alone afterwards: it never trades but as a resting order, on its old side and at
    exactly the new price; where it rests it has what it has not traded of the new quantity; and a limit order or a stop
    with a quantity rests until it has traded all of it.
   */
  lemma {:induction false} ModifyFate(before: seq<Command>, id: nat, p: int, q: nat, ts: int, after: seq<Command>)
    requires AllLegal(before + [ModifyOrder(id, p, q, ts)] + after) && id in Run(NewEngine, before).book.active
    requires !Modifies(after, id) && !Cancels(after, id)
    ensures var c, ref := ModifyOrder(id, p, q, ts), Run(NewEngine, before).book.active[id];
      var b, since := Run(NewEngine, before + [c] + after).book, Since(before, c, after);
      var traded := TradedBy(since, id);
      && (forall t | t in since && (t.buyId == id || t.sellId == id) ::
            t.price == p && (t.buyId == id ==> ref.side.Buy?) && (t.sellId == id ==> ref.side.Sell?))
      && traded <= q
      && (forall s: Side, l, o | l in b.On(s) && o in l.queue && o.id == id ::
            s == ref.side && l.price == p && traded + o.leaves == q)
      && ((ref.kind.Limit? || ref.kind.StopLoss?) && 0 < q ==>
            if traded < q then RestsAlone(b, ref.side, p, id, q - traded) else Nowhere(b, id))
  {
    hide Run, RunAccounts, Booked, Accounted, BookHonours, TradedBy, LostBy, RestsAlone, Nowhere, AllLegal, StopIds,
         Outstanding, PlacedIds, BookBelow, Numbered, ConsistentWith, Settled;
    var c, e, a := ModifyOrder(id, p, q, ts), Run(NewEngine, before), RunAccounts(NewEngine, before, NoAccounts);
    var w := ModifiedTerms(e.book, id, p, q);
    InTheMiddle(before, c, after);
    ModifyAgrees(e, id, p, q, ts);
    ModifyAccount(e, c, a);
    var e1, a1 := Step(e, c), Booked(e, c, a);
    RunOk(e1, after);
    RunHonours(w, e1, after);
    RunAccounted(e1, after, a1);
    AccountStays(e1, after, a1, id);
    var b := Run(e1, after).book;
    SettledOf(Run(e1, after), RunAccounts(e1, after, a1), id);
    assert Since(before, c, after) == b.trades[|e.book.trades|..];
    forall s: Side, l, o | l in b.On(s) && o in l.queue && o.id == id
      ensures s == w.side && l.price == p && TradedBy(Since(before, c, after), id) + o.leaves == q
    {
      RestingRecord(w, b, s, l, o);
      RestingPlaced(b, s, l, o);
    }
    if Plain(w) && 0 < q { Fate(w, e1, after, a1); NotPending(w, b); }
  }

  lemma NotPending(w: Terms, b: Book)
    requires w.id !in StopIds(b, [])
    ensures w.id !in IdsOf(b.pending)
  {
  }

  lemma {:induction false} SettledOf(e: Engine, a: Accounts, id: nat)
    requires Accounted(e, a) && id in a.of
    ensures var k := a.of[id];
      && k.since <= |e.book.trades| && k.lostSince <= |a.lost|
      && TradedBy(e.book.trades[k.since..], id) <= k.qty
      && (id in PlacedIds(e.book, []) ==> k.qty == Outstanding(e.book, id) + TradedBy(e.book.trades[k.since..], id))
  {
    hide Outstanding, PlacedIds, TradedBy, LostBy;
    assert Settled(e.book, a.of[id], a.lost, id);
  }

  /** A modify opens a new account, with nothing traded or lost in it. */
  lemma {:induction false} ModifyAccount(e: Engine, c: Command, a: Accounts)
    requires EngineOk(e) && Accounted(e, a) && c.ModifyOrder? && c.id in e.book.active
    ensures var a1 := Booked(e, c, a);
      && Accounted(Step(e, c), a1) && c.id in a1.of && c.id < Step(e, c).nextId
      && Step(e, c).book.trades == e.book.trades
      && a1.of[c.id] == Account(c.newQty, |e.book.trades|, |a.lost|)
      && |a.lost| <= |a1.lost| && LostBy(a1.lost[|a.lost|..], c.id) == 0
  {
    hide Accounted, Cancel, AddToBook, Modify;
    RemovalAccounted(e, c, a);
    ActiveBelow(e);
    ModifiedLast(e.book, c.id, c.newPrice, c.newQty, c.timestamp);
    assert a.lost + [] == a.lost && a.lost[|a.lost|..] == [];
  }

  // ----- ids -----

  function Submits(cs: seq<Command>): nat {
    if cs == [] then 0 else (if IsSubmit(cs[0]) then 1 else 0) + Submits(cs[1..])
  }

  /** Ids are given out one by one, from 1 on. */
  lemma {:induction false} IdsOneByOne(cs: seq<Command>)
    ensures Run(NewEngine, cs).nextId == 1 + Submits(cs)
  {
    IdsFrom(NewEngine, cs);
  }

  lemma {:induction false} IdsFrom(e: Engine, cs: seq<Command>)
    ensures Run(e, cs).nextId == e.nextId + Submits(cs)
    decreases |cs|
  {
    hide Step;
    if cs != [] {
      StepCounts(e, cs[0]);
      IdsFrom(Step(e, cs[0]), cs[1..]);
    }
  }
}
