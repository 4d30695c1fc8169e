/**
 * A trade order of the desktop application: its action, status, quantity and
 * prices, with the status and action predicates and the order's total value.
 * Prices are exact reals here; the creation and fill times are left out.
 */
module Order {

  datatype OrderStatus = Pending | Filled | Cancelled

  datatype OrderAction = Buy | Sell

  datatype TradeOrder = TradeOrder(
    orderId: int,
    symbol: string,
    action: OrderAction,
    quantity: int,
    price: real,
    status: OrderStatus,
    fillPrice: real,
    commission: real,
    permId: int,
    sortOrder: int)

  /** The default-constructed order: id 0, a buy of nothing at price 0, pending. */
  function DefaultOrder(): (o: TradeOrder)
    ensures o.orderId == 0 && IsBuy(o) && o.quantity == 0 && o.price == 0.0 && o.fillPrice == 0.0
    ensures IsPending(o) && o.commission == 0.0 && o.permId == 0 && o.sortOrder == 0 && o.symbol == ""
    ensures Total(o) == 0.0
  {
    TradeOrder(0, "", Buy, 0, 0.0, Pending, 0.0, 0.0, 0, 0)
  }

  predicate IsBuy(o: TradeOrder)
  {
    o.action == Buy
  }

  predicate IsSell(o: TradeOrder)
  {
    o.action == Sell
  }

  predicate IsPending(o: TradeOrder)
  {
    o.status == Pending
  }

  predicate IsFilled(o: TradeOrder)
  {
    o.status == Filled
  }

  predicate IsCancelled(o: TradeOrder)
  {
    o.status == Cancelled
  }

  /** The order's value: the fill price once filled, the limit price before, times the quantity. */
  function Total(o: TradeOrder): (t: real)
    ensures IsFilled(o) ==> t == o.fillPrice * o.quantity as real
    ensures !IsFilled(o) ==> t == o.price * o.quantity as real
    ensures o.quantity == 0 ==> t == 0.0
  {
    (if IsFilled(o) then o.fillPrice else o.price) * o.quantity as real
  }

  /** Exactly one of the three status predicates holds of every order. */
  lemma ExactlyOneStatus(o: TradeOrder)
    ensures IsPending(o) || IsFilled(o) || IsCancelled(o)
    ensures !(IsPending(o) && IsFilled(o)) && !(IsPending(o) && IsCancelled(o)) && !(IsFilled(o) && IsCancelled(o))
  {
  }

  /** An order is a buy exactly when it is not a sell. */
  lemma BuyIffNotSell(o: TradeOrder)
    ensures IsBuy(o) <==> !IsSell(o)
  {
  }
}
