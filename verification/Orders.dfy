/** The order record of include/order.h and the arithmetic of src/order.cpp, on values. */
module Orders {

  /** The width of the source's `uint64_t` quantities; used where the source can wrap. */
  const WORD: int := 0x1_0000_0000_0000_0000

  datatype Side = Buy | Sell {
    function Opposite(): Side {
      if Buy? then Sell else Buy
    }
  }

  datatype Kind = Limit | Market | Iceberg | StopLoss

  datatype Status = Active | Partial | Filled | Cancelled

  datatype OrderState = OrderState(
    id: nat, timestamp: int, side: Side, kind: Kind, price: int,
    quantity: nat, leaves: nat, status: Status,
    display: nat, hidden: nat, origDisplay: nat,
    triggerPrice: int, triggered: bool)
  {
    predicate IsFilled() {
      leaves == 0
    }

    predicate IsActive() {
      status.Active? || status.Partial?
    }

    function VisibleQty(): nat {
      if kind.Iceberg? then display else leaves
    }
  }

  // ----- the three constructors -----

  function PlainOrder(id: nat, timestamp: int, side: Side, kind: Kind, price: int, qty: nat): OrderState {
    OrderState(id, timestamp, side, kind, price, qty, qty, Active, 0, 0, 0, 0, false)
  }

  /** The hidden part is an unchecked unsigned subtraction: it wraps when `display > total`. */
  function IcebergOrder(id: nat, timestamp: int, side: Side, price: int, total: nat, display: nat): OrderState {
    OrderState(id, timestamp, side, Iceberg, price, total, total, Active, display, (total - display) % WORD, display, 0,
               false)
  }

  function StopOrder(id: nat, timestamp: int, side: Side, triggerPrice: int, limitPrice: int, qty: nat): OrderState {
    OrderState(id, timestamp, side, StopLoss, limitPrice, qty, qty, Active, 0, 0, 0, triggerPrice, false)
  }

  // ----- the mutators, as functions of the old state -----

  function Min(a: nat, b: nat): nat {
    if a <= b then a else b
  }

  function Replenished(o: OrderState): OrderState {
    if !o.kind.Iceberg? || o.hidden == 0 then o
    else
      var lot := Min(o.hidden, o.origDisplay);
      o.(display := o.display + lot, hidden := o.hidden - lot)
  }

  function FilledBy(o: OrderState, qty: nat): OrderState {
    if qty >= o.leaves then
      if o.kind.Iceberg? then o.(leaves := 0, display := 0, hidden := 0, status := Filled)
      else o.(leaves := 0, status := Filled)
    else if o.kind.Iceberg? then
      o.(leaves := o.leaves - qty, display := o.display - Min(qty, o.display), status := Partial)
    else
      o.(leaves := o.leaves - qty, status := Partial)
  }

  function CancelledOrder(o: OrderState): OrderState {
    o.(leaves := 0, status := Cancelled)
  }

  function TriggeredOrder(o: OrderState): OrderState {
    o.(triggered := true)
  }

  /** What a trade of `qty` does to a resting order: fill, then show the next lot if the visible one ran out. */
  function Traded(r: OrderState, qty: nat): OrderState {
    var r1 := FilledBy(r, qty);
    if !r1.IsFilled() && r1.kind.Iceberg? && r1.VisibleQty() == 0 then Replenished(r1) else r1
  }

  // ----- invariants of one order -----

  /** The display and hidden parts of an iceberg account for its leaves, unless the display ran out. */
  predicate Sound(o: OrderState) {
    o.kind.Iceberg? ==>
      (o.display == 0 || (o.display + o.hidden == o.leaves && 0 < o.origDisplay))
  }

  /** A sound order with visible quantity: what a resting order should be. */
  predicate Clean(o: OrderState) {
    Sound(o) && 0 < o.VisibleQty()
  }

  /** An order as a caller may submit it: no trade has touched it yet. */
  predicate Fresh(o: OrderState) {
    o.status.Active? && o.leaves == o.quantity && Sound(o)
  }
}
