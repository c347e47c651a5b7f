/** The quantity account of every order over whole runs: what it was given is left, traded, or lost. */
module EngineLedger {
  import opened Orders
  import opened BookSpec
  import opened BookInvariants
  import opened Ledger
  import opened EngineSpec
  import opened EngineRuns

  /** The quantity an order was given, and how much history and losses there were when its account was opened. */
  datatype Account = Account(qty: nat, since: nat, lostSince: nat)

  /** An account for every order submitted, and all quantity lost so far, in order. */
  datatype Accounts = Accounts(of: map<nat, Account>, lost: seq<Lost>)

  const NoAccounts: Accounts := Accounts(map[], [])

  /** The quantity a command takes out of the book without a trade. */
  function StepLost(e: Engine, c: Command): seq<Lost> {
    match c
    case CancelOrder(id) => if id in e.book.active then [Lost(id, Outstanding(e.book, id))] else []
    case ModifyOrder(_, _, _, _) => []
    case _ => LostIn(e.book, OrderOf(c, e.nextId))
  }

  /** A submit opens an account over the whole history; a modify opens a new one for what follows it. */
  function Booked(e: Engine, c: Command, a: Accounts): Accounts {
    var of :=
      match c
      case CancelOrder(_) => a.of
      case ModifyOrder(id, _, newQty, _) =>
        if id in e.book.active then a.of[id := Account(newQty, |e.book.trades|, |a.lost|)] else a.of
      case _ => a.of[e.nextId := Account(OrderOf(c, e.nextId).quantity, 0, 0)];
    Accounts(of, a.lost + StepLost(e, c))
  }

  function RunAccounts(e: Engine, cs: seq<Command>, a: Accounts): Accounts
    decreases |cs|
  {
    if cs == [] then a else RunAccounts(Step(e, cs[0]), cs[1..], Booked(e, cs[0], a))
  }

  /** What was given is what may still trade, what traded and what was lost since; a placed order lost nothing. */
  predicate Settled(b: Book, k: Account, lost: seq<Lost>, id: nat) {
    && k.since <= |b.trades| && k.lostSince <= |lost|
    && k.qty == Outstanding(b, id) + TradedBy(b.trades[k.since..], id) + LostBy(lost[k.lostSince..], id)
    && (id in PlacedIds(b, []) ==> LostBy(lost[k.lostSince..], id) == 0)
  }

  /** Nothing is known of an id that was not given yet. */
  predicate Unborn(b: Book, lost: seq<Lost>, id: nat) {
    TradedBy(b.trades, id) == 0 && LostBy(lost, id) == 0
  }

  ghost predicate Accounted(e: Engine, a: Accounts) {
    && (forall id: nat | 1 <= id < e.nextId :: id in a.of)
    && (forall id | id in a.of :: id < e.nextId)
    && (forall id | id in a.of :: Settled(e.book, a.of[id], a.lost, id))
    && (forall id: nat | e.nextId <= id :: Unborn(e.book, a.lost, id))
  }

  // ----- cancel and modify -----

  lemma OutstandingNone(e: Engine, id: nat)
    requires EngineOk(e) && e.nextId <= id
    ensures Outstanding(e.book, id) == 0
  {
    SidesApart(e.book, []);
    LevelsNone(e.book.bids, id);
    LevelsNone(e.book.asks, id);
    LeavesNone(e.book.pending, id);
    LeavesNone(e.book.triggered, id);
  }

  lemma {:induction false} WithoutLeaves(queue: seq<OrderState>, gone: nat, id: nat)
    ensures LeavesIn(Without(queue, gone), id) == if id == gone then 0 else LeavesIn(queue, id)
  {
    if queue != [] {
      WithoutLeaves(queue[1..], gone, id);
      var q := Without(queue[1..], gone);
      if queue[0].id == gone {
        assert [] + q == q;
      } else {
        assert ([queue[0]] + q)[1..] == q;
      }
    }
  }

  lemma {:induction false} RemoveLeaves(levels: seq<Level>, price: int, gone: nat, id: nat)
    requires id != gone
    ensures LeavesOn(RemoveOrder(levels, price, gone), id) == LeavesOn(levels, id)
    decreases |levels|
  {
    if levels != [] {
      var r := RemoveOrder(levels, price, gone);
      if levels[0].price == price {
        WithoutLeaves(levels[0].queue, gone, id);
        if Without(levels[0].queue, gone) != [] {
          assert r[1..] == levels[1..];
        }
      } else {
        RemoveLeaves(levels[1..], price, gone, id);
        assert r[1..] == RemoveOrder(levels[1..], price, gone);
      }
    }
  }

  lemma CancelLedger(b: Book, gone: nat, id: nat)
    requires Consistent(b) && gone in b.active
    ensures Cancel(b, gone).trades == b.trades
    ensures Outstanding(Cancel(b, gone), id) == if id == gone then 0 else Outstanding(b, id)
  {
    CancelOk(b, gone);
    var c := Cancel(b, gone);
    if id == gone {
      SidesApart(c, []);
      LevelsNone(c.bids, id);
      LevelsNone(c.asks, id);
      assert id !in IdsOf(b.pending);
      LeavesNone(c.pending, id);
    } else {
      RemoveLeaves(b.On(b.active[gone].side), b.active[gone].price, gone, id);
    }
  }

  lemma ModifyLedger(b: Book, changed: nat, newPrice: int, newQty: nat, ts: int, id: nat)
    requires Consistent(b) && changed in b.active
    ensures var r := Modify(b, changed, newPrice, newQty, ts);
            && r.trades == b.trades
            && Outstanding(r, id) == if id == changed then newQty else Outstanding(b, id)
  {
    CancelLedger(b, changed, id);
    var r := b.active[changed];
    AddOrderLeaves(r.side, Cancel(b, changed).On(r.side), PlainOrder(changed, ts, r.side, r.kind, newPrice, newQty),
                   id);
  }

  /** Cancel and modify place nobody new but a modified order. */
  lemma RemovalPlaced(b: Book, id: nat, newPrice: int, newQty: nat, ts: int)
    requires Consistent(b) && id in b.active
    ensures PlacedIds(Cancel(b, id), []) <= PlacedIds(b, []) - {id}
    ensures PlacedIds(Modify(b, id, newPrice, newQty, ts), []) <= PlacedIds(b, []) + {id}
  {
    hide LevelOk, Sorted, LevelIds, IdsOf;
    var r := b.active[id];
    assert b.On(Buy) == b.bids && b.On(Sell) == b.asks;
    SidesApart(b, []);
    StopsUnknown(b, []);
    RemoveOrderOk(r.side, b.On(r.side), id, b.active);
    CancelOk(b, id);
    var c := Cancel(b, id);
    AddOrderOk(r.side, c.On(r.side), PlainOrder(id, ts, r.side, r.kind, newPrice, newQty), c.active);
  }

  lemma ActiveBelow(e: Engine)
    requires EngineOk(e)
    ensures forall id | id in e.book.active :: id < e.nextId
  {
  }

  lemma CancelNothing(b: Book, id: nat)
    requires id !in b.active
    ensures Cancel(b, id) == b
  {
  }

  lemma CancelSettled(e: Engine, gone: nat, k: Account, lost: seq<Lost>, id: nat)
    requires EngineOk(e) && gone in e.book.active && Settled(e.book, k, lost, id)
    ensures Settled(Cancel(e.book, gone), k, lost + [Lost(gone, Outstanding(e.book, gone))], id)
  {
    hide Cancel, Outstanding, ConsistentWith, PlacedIds, BookBelow, Numbered, TradedBy;
    var l := Lost(gone, Outstanding(e.book, gone));
    CancelLedger(e.book, gone, id);
    RemovalPlaced(e.book, gone, 0, 0, 0);
    assert (lost + [l])[k.lostSince..] == lost[k.lostSince..] + [l];
    LostConcat(lost[k.lostSince..], [l], id);
    LostSingle(l, id);
  }

  lemma ModifySettled(e: Engine, c: Command, k: Account, lost: seq<Lost>, id: nat)
    requires EngineOk(e) && c.ModifyOrder? && c.id in e.book.active
    requires id != c.id ==> Settled(e.book, k, lost, id)
    ensures Settled(Step(e, c).book, if id == c.id then Account(c.newQty, |e.book.trades|, |lost|) else k, lost, id)
  {
    hide Cancel, AddToBook, Outstanding, ConsistentWith, PlacedIds, BookBelow, Numbered;
    ModifyLedger(e.book, c.id, c.newPrice, c.newQty, c.timestamp, id);
    RemovalPlaced(e.book, c.id, c.newPrice, c.newQty, c.timestamp);
    assert e.book.trades[|e.book.trades|..] == [] && lost[|lost|..] == [];
  }

  lemma RemovalAccounted(e: Engine, c: Command, a: Accounts)
    requires EngineOk(e) && !IsSubmit(c) && Accounted(e, a)
    ensures Accounted(Step(e, c), Booked(e, c, a))
  {
    hide Cancel, AddToBook, Outstanding, ConsistentWith, Settled, LostBy, TradedBy;
    var e', a' := Step(e, c), Booked(e, c, a);
    if c.CancelOrder? {
      if c.id in e.book.active {
        ActiveBelow(e);
        CancelLedger(e.book, c.id, 0);
        var l := Lost(c.id, Outstanding(e.book, c.id));
        forall id | id in a.of ensures Settled(e'.book, a.of[id], a'.lost, id) {
          CancelSettled(e, c.id, a.of[id], a.lost, id);
        }
        forall id: nat | e.nextId <= id ensures Unborn(e'.book, a'.lost, id) {
          LostConcat(a.lost, [l], id);
          LostSingle(l, id);
          assert Unborn(e.book, a.lost, id);
        }
      } else {
        CancelNothing(e.book, c.id);
        assert a.lost + [] == a.lost;
      }
    } else if c.id in e.book.active {
      ActiveBelow(e);
      ModifyLedger(e.book, c.id, c.newPrice, c.newQty, c.timestamp, 0);
      assert a.lost + [] == a.lost;
      forall id | id in a'.of ensures Settled(e'.book, a'.of[id], a.lost, id) {
        ModifySettled(e, c, if id in a.of then a.of[id] else a'.of[id], a.lost, id);
      }
      forall id: nat | e.nextId <= id ensures Unborn(e'.book, a.lost, id) { assert Unborn(e.book, a.lost, id); }
    } else {
      assert a.lost + [] == a.lost;
    }
  }

  // ----- submit -----

  lemma {:induction false} GrownSuffix(b: Book, r: Book, lost: seq<Lost>, more: seq<Lost>, since: nat, lostSince: nat,
                                       id: nat)
    requires b.trades <= r.trades && since <= |b.trades| && lostSince <= |lost|
    ensures TradedBy(r.trades[since..], id) == TradedBy(b.trades[since..], id) + TradedBy(r.trades[|b.trades|..], id)
    ensures LostBy((lost + more)[lostSince..], id) == LostBy(lost[lostSince..], id) + LostBy(more, id)
  {
    assert r.trades[since..] == b.trades[since..] + r.trades[|b.trades|..];
    TradedConcat(b.trades[since..], r.trades[|b.trades|..], id);
    assert (lost + more)[lostSince..] == lost[lostSince..] + more;
    LostConcat(lost[lostSince..], more, id);
  }

  /** What a submit does to the account of one id. */
  lemma SubmitSettled(e: Engine, c: Command, k: Account, lost: seq<Lost>, id: nat)
    requires EngineOk(e) && Legal(c) && IsSubmit(c)
    requires id != e.nextId ==> Settled(e.book, k, lost, id)
    requires id == e.nextId ==> k == Account(OrderOf(c, id).quantity, 0, 0) && Unborn(e.book, lost, id)
    ensures Settled(Step(e, c).book, k, lost + StepLost(e, c), id)
  {
    hide Match, Outstanding, ConsistentWith, PlacedIds, BookBelow, Numbered, TradedBy, LostBy, LostIn, Sound;
    var b, r, o := e.book, Step(e, c).book, OrderOf(c, e.nextId);
    SubmitReady(e, c);
    MatchLedger(b, o, id);
    MatchPlaced(b, o);
    GrownSuffix(b, r, lost, LostIn(b, o), k.since, k.lostSince, id);
    if id in PlacedIds(r, []) { LostNone(LostIn(b, o), id); }
    if id == e.nextId {
      OutstandingNone(e, id);
      assert b.trades[0..] == b.trades && lost[0..] == lost;
    }
  }

  lemma SubmitUnborn(e: Engine, c: Command, lost: seq<Lost>, id: nat)
    requires EngineOk(e) && Legal(c) && IsSubmit(c) && e.nextId < id && Unborn(e.book, lost, id)
    ensures Unborn(Step(e, c).book, lost + StepLost(e, c), id)
  {
    hide Match, Outstanding, ConsistentWith, BookBelow, Numbered, TradedBy, LostBy, LostIn, Sound;
    var b, r, o := e.book, Step(e, c).book, OrderOf(c, e.nextId);
    SubmitReady(e, c);
    MatchLedger(b, o, id);
    OutstandingNone(e, id);
    GrownSuffix(b, r, lost, LostIn(b, o), 0, 0, id);
    assert b.trades[0..] == b.trades && r.trades[0..] == r.trades && lost[0..] == lost;
    assert (lost + LostIn(b, o))[0..] == lost + LostIn(b, o);
  }

  lemma SubmitAccounted(e: Engine, c: Command, a: Accounts)
    requires EngineOk(e) && Legal(c) && IsSubmit(c) && 1 <= e.nextId && Accounted(e, a)
    ensures Accounted(Step(e, c), Booked(e, c, a))
  {
    hide Match, Settled, Unborn, EngineOk, LostIn;
    var e', a' := Step(e, c), Booked(e, c, a);
    forall id | id in a'.of ensures Settled(e'.book, a'.of[id], a'.lost, id) {
      SubmitSettled(e, c, a'.of[id], a.lost, id);
    }
    forall id: nat | e'.nextId <= id ensures Unborn(e'.book, a'.lost, id) {
      SubmitUnborn(e, c, a.lost, id);
    }
  }

  // ----- whole runs -----

  /** The accounts stay settled along every legal run. */
  lemma {:induction false} RunAccounted(e: Engine, cs: seq<Command>, a: Accounts)
    requires EngineOk(e) && AllLegal(cs) && 1 <= e.nextId && Accounted(e, a)
    ensures Accounted(Run(e, cs), RunAccounts(e, cs, a))
    decreases |cs|
  {
    hide Accounted, EngineOk, Match, Cancel, Modify;
    if cs != [] {
      var c := cs[0];
      assert c in cs;
      StepOk(e, c);
      if IsSubmit(c) { SubmitAccounted(e, c, a); } else { RemovalAccounted(e, c, a); }
      RunAccounted(Step(e, c), cs[1..], Booked(e, c, a));
    }
  }

  /**
    Conservation over every legal run. Each order ever submitted has an account; the quantity it was given when it was
    submitted or last modified is what it may still trade, what the history since says it traded, and what was lost with
    it: cancelled, left over from a market order, or dropped from a level with nothing visible. An order that
    still rests or waits lost nothing, and nobody trades more than it was given.
   */
  lemma {:induction false} RunBalances(cs: seq<Command>, id: nat)
    requires AllLegal(cs) && 1 <= id < Run(NewEngine, cs).nextId
    ensures id in RunAccounts(NewEngine, cs, NoAccounts).of
    ensures var e, a := Run(NewEngine, cs), RunAccounts(NewEngine, cs, NoAccounts);
            var k, trades := a.of[id], e.book.trades;
            && k.since <= |trades| && k.lostSince <= |a.lost|
            && k.qty == Outstanding(e.book, id) + TradedBy(trades[k.since..], id) + LostBy(a.lost[k.lostSince..], id)
            && (id in PlacedIds(e.book, []) ==> k.qty == Outstanding(e.book, id) + TradedBy(trades[k.since..], id))
            && TradedBy(trades[k.since..], id) <= k.qty
  {
    hide Match, Outstanding, TradedBy, LostBy, PlacedIds;
    NewEngineOk();
    NothingTraded();
    RunAccounted(NewEngine, cs, NoAccounts);
  }

  lemma NothingTraded()
    ensures Accounted(NewEngine, NoAccounts)
  {
  }

  // ----- no order overfills -----

  lemma {:induction false} AccountsConcat(e: Engine, cs: seq<Command>, more: seq<Command>, a: Accounts)
    ensures RunAccounts(e, cs + more, a) == RunAccounts(Run(e, cs), more, RunAccounts(e, cs, a))
    decreases |cs|
  {
    hide Match, Step, Booked;
    if cs == [] {
      assert cs + more == more;
    } else {
      assert (cs + more)[1..] == cs[1..] + more;
      AccountsConcat(Step(e, cs[0]), cs[1..], more, Booked(e, cs[0], a));
    }
  }

  predicate Modifies(cs: seq<Command>, id: nat) {
    exists c | c in cs :: c.ModifyOrder? && c.id == id
  }

  lemma {:induction false} AccountStays(e: Engine, cs: seq<Command>, a: Accounts, id: nat)
    requires id in a.of && id < e.nextId && !Modifies(cs, id)
    ensures var r := RunAccounts(e, cs, a); id in r.of && r.of[id] == a.of[id]
    ensures id < Run(e, cs).nextId
    decreases |cs|
  {
    hide Match, LostIn, Cancel, Modify;
    if cs != [] {
      assert cs[0] in cs;
      AccountStays(Step(e, cs[0]), cs[1..], Booked(e, cs[0], a), id);
    }
  }

  lemma {:induction false} CounterGrows(e: Engine, cs: seq<Command>)
    ensures e.nextId <= Run(e, cs).nextId
    decreases |cs|
  {
    hide Match, Cancel, Modify;
    if cs != [] {
      CounterGrows(Step(e, cs[0]), cs[1..]);
    }
  }

  lemma {:induction false} AccountsCons(e: Engine, c: Command, cs: seq<Command>, a: Accounts)
    ensures RunAccounts(e, [c] + cs, a) == RunAccounts(Step(e, c), cs, Booked(e, c, a))
  {
    hide Step, Booked;
    assert ([c] + cs)[1..] == cs;
  }

  lemma SubmitOpens(e: Engine, c: Command, a: Accounts)
    requires IsSubmit(c)
    ensures var r := Booked(e, c, a).of;
            e.nextId in r && r[e.nextId] == Account(OrderOf(c, e.nextId).quantity, 0, 0) && e.nextId < Step(e, c).nextId
  {
    hide Match, LostIn;
  }

  lemma {:induction false} TradedPrefix(trades: seq<Trade>, n: nat, id: nat)
    requires n <= |trades|
    ensures TradedBy(trades[..n], id) <= TradedBy(trades, id)
  {
    assert trades == trades[..n] + trades[n..];
    TradedConcat(trades[..n], trades[n..], id);
  }

  /**
    No order overfills: at every point of the history, between the trades of one match too, an order that no
    command modifies has traded at most the quantity it was submitted with, whether it was resting or incoming.
   */
  lemma {:induction false} NeverOverfilled(before: seq<Command>, c: Command, after: seq<Command>, n: nat)
    requires AllLegal(before + [c] + after) && IsSubmit(c)
    requires !Modifies(after, Run(NewEngine, before).nextId)
    requires n <= |Run(NewEngine, before + [c] + after).book.trades|
    ensures var id := Run(NewEngine, before).nextId;
            TradedBy(Run(NewEngine, before + [c] + after).book.trades[..n], id) <= OrderOf(c, id).quantity
  {
    hide Step, Booked, Run, RunAccounts, Outstanding, TradedBy, PlacedIds, AllLegal, Modifies;
    var cs, e1, a1 := before + [c] + after, Run(NewEngine, before), RunAccounts(NewEngine, before, NoAccounts);
    var id := e1.nextId;
    assert cs == before + ([c] + after);
    CounterGrows(NewEngine, before);
    RunConcat(NewEngine, before, [c] + after);
    AccountsConcat(NewEngine, before, [c] + after, NoAccounts);
    RunCons(e1, c, after);
    AccountsCons(e1, c, after, a1);
    SubmitOpens(e1, c, a1);
    AccountStays(Step(e1, c), after, Booked(e1, c, a1), id);
    RunBalances(cs, id);
    var trades := Run(NewEngine, cs).book.trades;
    assert trades[0..] == trades;
    TradedPrefix(trades, n, id);
  }
}
