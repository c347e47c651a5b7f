/** The engine of src/matching_engine.cpp: ids from a counter, commands to the book, runs of commands. */
module EngineSpec {
  import opened Orders
  import opened BookSpec

  /** One call of the engine; `timestamp` is what the clock gave for it. */
  datatype Command =
    | SubmitLimit(side: Side, price: int, qty: nat, timestamp: int)
    | SubmitMarket(side: Side, qty: nat, timestamp: int)
    | SubmitIceberg(side: Side, price: int, total: nat, display: nat, timestamp: int)
    | SubmitStop(side: Side, trigger: int, limit: int, qty: nat, timestamp: int)
    | CancelOrder(id: nat)
    | ModifyOrder(id: nat, newPrice: int, newQty: nat, timestamp: int)

  datatype Engine = Engine(book: Book, nextId: nat)

  const NewEngine: Engine := Engine(EmptyBook, 1)

  predicate IsSubmit(c: Command) {
    !c.CancelOrder? && !c.ModifyOrder?
  }

  /** The order a submit creates under the id `id`. */
  function OrderOf(c: Command, id: nat): OrderState
    requires IsSubmit(c)
  {
    match c
    case SubmitLimit(side, price, qty, ts) => PlainOrder(id, ts, side, Limit, price, qty)
    case SubmitMarket(side, qty, ts) => PlainOrder(id, ts, side, Market, 0, qty)
    case SubmitIceberg(side, price, total, display, ts) => IcebergOrder(id, ts, side, price, total, display)
    case SubmitStop(side, trigger, limit, qty, ts) => StopOrder(id, ts, side, trigger, limit, qty)
  }

  function Step(e: Engine, c: Command): Engine {
    match c
    case CancelOrder(id) => e.(book := Cancel(e.book, id))
    case ModifyOrder(id, newPrice, newQty, ts) => e.(book := Modify(e.book, id, newPrice, newQty, ts))
    case _ => Engine(Match(e.book, OrderOf(c, e.nextId)), e.nextId + 1)
  }

  function Run(e: Engine, cs: seq<Command>): Engine
    decreases |cs|
  {
    if cs == [] then e else Run(Step(e, cs[0]), cs[1..])
  }

  lemma {:induction false} RunCons(e: Engine, c: Command, cs: seq<Command>)
    ensures Run(e, [c] + cs) == Run(Step(e, c), cs)
  {
    assert ([c] + cs)[1..] == cs;
  }

  lemma {:induction false} RunConcat(e: Engine, cs: seq<Command>, more: seq<Command>)
    ensures Run(e, cs + more) == Run(Run(e, cs), more)
    decreases |cs|
  {
    hide Step;
    if cs == [] {
      assert cs + more == more;
    } else {
      assert (cs + more)[1..] == cs[1..] + more;
      RunConcat(Step(e, cs[0]), cs[1..], more);
    }
  }

  /** The iceberg constructor's subtraction does not wrap. */
  predicate Legal(c: Command) {
    c.SubmitIceberg? ==> c.display <= c.total < WORD
  }

  predicate AllLegal(cs: seq<Command>) {
    forall c | c in cs :: Legal(c)
  }
}
