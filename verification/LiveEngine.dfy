/** The MatchingEngine class of src/matching_engine.cpp over the live book; clock readings are parameters. */
module LiveEngine {
  import opened Orders
  import opened LiveOrder
  import opened LiveLevels
  import opened LiveBook
  import opened CancelRoundTrip
  import BookSpec
  import EngineSpec

  class MatchingEngine {
    const book: OrderBook
    var nextId: nat

    ghost predicate Valid()
      reads this, book, book.shown.Keys
    {
      book.Valid() && Tracked()
    }

    /** Ids are unique and below the counter, and each resting object is found in the index under its id. */
    ghost predicate Tracked()
      reads this, book
    {
      book.Indexed() && Unique(book.Placed()) && forall id | id in IdsIn(book.Placed()) :: id < nextId
    }

    ghost function View(): EngineSpec.Engine
      reads this, book
    {
      EngineSpec.Engine(book.View(), nextId)
    }

    constructor ()
      ensures Valid() && View() == EngineSpec.NewEngine
      ensures fresh(book) && book.Placed() == {}
    {
      var b := new OrderBook();
      book, nextId := b, 1;
    }

    method SubmitLimit(side: Side, price: int, qty: nat, timestamp: int) returns (id: nat)
      requires Valid()
      modifies this, book, book.Placed()
      ensures Valid() && fresh(book.Placed() - old(book.Placed()))
      ensures id == old(nextId)
      ensures View() == EngineSpec.Step(old(View()), EngineSpec.SubmitLimit(side, price, qty, timestamp))
    {
      hide OrderBook.Valid, OrderBook.View, OrderBook.Placed, OrderBook.Indexed, Unique, IdsIn, BookSpec.Match;
      id := nextId;
      nextId := nextId + 1;
      var order := new Order.MakePlain(id, timestamp, side, Limit, price, qty);
      Joins(old(book.Placed()), order);
      var trades := book.Match(order);
      Joined(old(book.Placed()), book.Placed(), order);
    }

    method SubmitMarket(side: Side, qty: nat, timestamp: int)
      requires Valid()
      modifies this, book, book.Placed()
      ensures Valid() && fresh(book.Placed() - old(book.Placed()))
      ensures View() == EngineSpec.Step(old(View()), EngineSpec.SubmitMarket(side, qty, timestamp))
    {
      hide OrderBook.Valid, OrderBook.View, OrderBook.Placed, OrderBook.Indexed, Unique, IdsIn, BookSpec.Match;
      var id := nextId;
      nextId := nextId + 1;
      var order := new Order.MakePlain(id, timestamp, side, Market, 0, qty);
      Joins(old(book.Placed()), order);
      var trades := book.Match(order);
      Joined(old(book.Placed()), book.Placed(), order);
    }

    method SubmitIceberg(side: Side, price: int, total: nat, display: nat, timestamp: int) returns (id: nat)
      requires Valid()
      modifies this, book, book.Placed()
      ensures Valid() && fresh(book.Placed() - old(book.Placed()))
      ensures id == old(nextId)
      ensures View() == EngineSpec.Step(old(View()), EngineSpec.SubmitIceberg(side, price, total, display, timestamp))
    {
      hide OrderBook.Valid, OrderBook.View, OrderBook.Placed, OrderBook.Indexed, Unique, IdsIn, BookSpec.Match;
      id := nextId;
      nextId := nextId + 1;
      var order := new Order.MakeIceberg(id, timestamp, side, price, total, display);
      Joins(old(book.Placed()), order);
      var trades := book.Match(order);
      Joined(old(book.Placed()), book.Placed(), order);
    }

    method SubmitStopLoss(side: Side, trigger: int, limit: int, qty: nat, timestamp: int) returns (id: nat)
      requires Valid()
      modifies this, book, book.Placed()
      ensures Valid() && fresh(book.Placed() - old(book.Placed()))
      ensures id == old(nextId)
      ensures View() == EngineSpec.Step(old(View()), EngineSpec.SubmitStop(side, trigger, limit, qty, timestamp))
    {
      hide OrderBook.Valid, OrderBook.View, OrderBook.Placed, OrderBook.Indexed, Unique, IdsIn, BookSpec.Match;
      id := nextId;
      nextId := nextId + 1;
      var order := new Order.MakeStop(id, timestamp, side, trigger, limit, qty);
      Joins(old(book.Placed()), order);
      var trades := book.Match(order);
      Joined(old(book.Placed()), book.Placed(), order);
    }

    method CancelOrder(id: nat) returns (ok: bool)
      requires Valid()
      modifies this, book, book.Placed()
      ensures Valid() && book.Placed() <= old(book.Placed())
      ensures ok == (id in old(book.active))
      ensures View() == EngineSpec.Step(old(View()), EngineSpec.CancelOrder(id))
    {
      hide OrderBook.Valid, OrderBook.View, OrderBook.Placed, OrderBook.Indexed, Unique, IdsIn, BookSpec.Cancel;
      ok := book.CancelOrder(id);
      Fewer(old(book.Placed()), book.Placed());
    }

    lemma ModifyLifts(id: nat, newPrice: int, newQty: nat, timestamp: int)
      requires Valid()
      ensures var b := View().book; var r := BookSpec.Modify(b, id, newPrice, newQty, timestamp);
        if id in book.active then LastAt(r.On(book.active[id].side), newPrice, id, newQty, timestamp) else r == b
    {
      hide BookSpec.Cancel, BookSpec.AddToBook, OrderBook.View, LastAt;
      book.ActiveRefs(id);
      if id in book.active { ModifiedLast(View().book, id, newPrice, newQty, timestamp); }
    }

    method ModifyOrder(id: nat, newPrice: int, newQty: nat, timestamp: int) returns (ok: bool)
      requires Valid()
      modifies this, book, book.Placed()
      ensures Valid() && fresh(book.Placed() - old(book.Placed()))
      ensures ok == (id in old(book.active))
      ensures View() == EngineSpec.Step(old(View()), EngineSpec.ModifyOrder(id, newPrice, newQty, timestamp))
      ensures ok ==> LastAt(View().book.On(old(book.active)[id].side), newPrice, id, newQty, timestamp)
      ensures !ok ==> View() == old(View())
    {
      hide LastAt, OrderBook.Valid, OrderBook.View, OrderBook.Placed, OrderBook.Indexed, Unique, IdsIn, BookSpec.Modify;
      ModifyLifts(id, newPrice, newQty, timestamp);
      ok := book.ModifyOrder(id, newPrice, newQty, timestamp);
    }
  }

  lemma Joins(s: set<Order>, o: Order)
    requires Unique(s) && forall id | id in IdsIn(s) :: id < o.id
    ensures Unique(s + {o})
  {
    forall p | p in s ensures p.id != o.id { assert p.id in IdsIn(s); }
  }

  lemma Joined(s: set<Order>, t: set<Order>, o: Order)
    requires Unique(s + {o}) && t <= s + {o} && forall id | id in IdsIn(s) :: id < o.id
    ensures Unique(t) && forall id | id in IdsIn(t) :: id < o.id + 1
  {
    forall p | p in t ensures p.id < o.id + 1 { if p in s { assert p.id in IdsIn(s); } }
  }

  lemma Fewer(s: set<Order>, t: set<Order>)
    requires Unique(s) && t <= s
    ensures Unique(t) && IdsIn(t) <= IdsIn(s)
  {
  }
}
