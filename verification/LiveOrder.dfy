/** The Order class of include/order.h: one object, shared by the book's levels and its index, updated in place. */
module LiveOrder {
  import opened Orders

  class Order {
    const id: nat
    const timestamp: int
    const side: Side
    const kind: Kind
    const price: int
    const quantity: nat
    const origDisplay: nat
    const triggerPrice: int
    var leaves: nat
    var status: Status
    var display: nat
    var hidden: nat
    var triggered: bool

    function State(): OrderState
      reads this
    {
      OrderState(id, timestamp, side, kind, price, quantity, leaves, status, display, hidden, origDisplay, triggerPrice,
                 triggered)
    }

    predicate IsActive()
      reads this
    {
      status.Active? || status.Partial?
    }

    constructor MakePlain(id: nat, timestamp: int, side: Side, kind: Kind, price: int, qty: nat)
      ensures State() == PlainOrder(id, timestamp, side, kind, price, qty)
      ensures this.side == side && this.kind == kind && this.price == price && leaves == quantity == qty
    {
      this.id, this.timestamp, this.side, this.kind, this.price := id, timestamp, side, kind, price;
      quantity, leaves, status := qty, qty, Active;
      display, hidden, origDisplay, triggerPrice, triggered := 0, 0, 0, 0, false;
    }

    constructor MakeIceberg(id: nat, timestamp: int, side: Side, price: int, total: nat, display: nat)
      ensures State() == IcebergOrder(id, timestamp, side, price, total, display)
      ensures this.side == side && this.price == price && leaves == quantity == total
      ensures this.display == origDisplay == display && (display <= total < WORD ==> hidden == total - display)
    {
      this.id, this.timestamp, this.side, this.kind, this.price := id, timestamp, side, Iceberg, price;
      quantity, leaves, status := total, total, Active;
      this.display, hidden, origDisplay := display, (total - display) % WORD, display;
      triggerPrice, triggered := 0, false;
    }

    constructor MakeStop(id: nat, timestamp: int, side: Side, triggerPrice: int, limitPrice: int, qty: nat)
      ensures State() == StopOrder(id, timestamp, side, triggerPrice, limitPrice, qty)
      ensures this.side == side && price == limitPrice && this.triggerPrice == triggerPrice && leaves == quantity == qty
    {
      this.id, this.timestamp, this.side, this.kind, this.price := id, timestamp, side, StopLoss, limitPrice;
      quantity, leaves, status := qty, qty, Active;
      display, hidden, origDisplay, triggered := 0, 0, 0, false;
      this.triggerPrice := triggerPrice;
    }

    method VisibleQty() returns (qty: nat)
      ensures qty == State().VisibleQty()
    {
      qty := if kind.Iceberg? then display else leaves;
    }

    method Replenish()
      modifies this
      ensures State() == Replenished(old(State()))
    {
      if !kind.Iceberg? || hidden == 0 { return; }
      var lot := Min(hidden, origDisplay);
      display := display + lot;
      hidden := hidden - lot;
    }

    method Fill(qty: nat)
      modifies this
      ensures State() == FilledBy(old(State()), qty)
      ensures leaves == (if qty < old(leaves) then old(leaves) - qty else 0)
      ensures status == if leaves == 0 then Filled else Partial
    {
      if qty >= leaves {
        leaves := 0;
        if kind.Iceberg? { display := 0; hidden := 0; }
        status := Filled;
      } else {
        leaves := leaves - qty;
        if kind.Iceberg? {
          var fromDisplay := Min(qty, display);
          display := display - fromDisplay;
        }
        status := Partial;
      }
    }

    method Cancel()
      modifies this
      ensures State() == CancelledOrder(old(State())) && leaves == 0 && status == Cancelled
    {
      leaves := 0;
      status := Cancelled;
    }

    method Trigger()
      modifies this
      ensures State() == TriggeredOrder(old(State())) && triggered
    {
      triggered := true;
    }
  }
}
