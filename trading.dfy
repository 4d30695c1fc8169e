/**
 * The trading manager of the desktop application: it keeps the orders it
 * placed, the pending buy and sell order ids, the positions by symbol and the
 * current sell offset, and it reacts to order-status, error and price
 * callbacks. The calls it makes on the TWS client are returned as
 * `ClientCall` values; the order id the client hands back, the settings
 * (budget, offsets) and the trading-hours test are parameters.
 */
module Trading {
  import opened Wrappers
  import opened Order
  import opened Seqs

  /** A call the manager makes on the TWS client. */
  datatype ClientCall =
    | CancelOrder(orderId: int)
    | PlaceLimitOrder(symbol: string, action: OrderAction, quantity: int, price: real, tif: string,
                      outsideRth: bool, exchange: string)

  /** The warnings the manager emits when it refuses an action. */
  datatype Warning =
    | SwitchWithPosition
    | NoSymbol
    | PositionExists
    | NoPosition
    | NoMarketData
    | ZeroShares
    | OverBudget
    | NothingToClose

  /** The orders and the ids of the pending buy and sell orders (-1 for none). */
  datatype Book = Book(orders: map<int, TradeOrder>, pendingBuyOrderId: int, pendingSellOrderId: int)

  const EmptyBook := Book(map[], -1, -1)

  function PendingOf(b: Book, side: OrderAction): int
  {
    if side == Buy then b.pendingBuyOrderId else b.pendingSellOrderId
  }

  /** Pending order ids name stored orders, and the buy and sell ids differ. */
  predicate Tracked(b: Book)
  {
    (b.pendingBuyOrderId >= 0 ==> b.pendingBuyOrderId in b.orders)
    && (b.pendingSellOrderId >= 0 ==> b.pendingSellOrderId in b.orders)
    && (b.pendingBuyOrderId >= 0 ==> b.pendingBuyOrderId != b.pendingSellOrderId)
  }

  /** An id the client hands out for a new order: -1 (not connected) or one no stored order has. */
  predicate FreshId(b: Book, orderId: int)
  {
    orderId < 0 || orderId !in b.orders
  }

  /** `getPendingBuyQuantity` / `getPendingSellQuantity`. */
  function PendingQuantity(b: Book, side: OrderAction): (q: int)
    ensures var id := PendingOf(b, side);
      id >= 0 && id in b.orders && IsPending(b.orders[id]) ==> q == b.orders[id].quantity
    ensures var id := PendingOf(b, side);
      !(id >= 0 && id in b.orders && IsPending(b.orders[id])) ==> q == 0
    ensures PendingOf(b, side) < 0 ==> q == 0
  {
    var id := PendingOf(b, side);
    if id >= 0 && id in b.orders && IsPending(b.orders[id]) then b.orders[id].quantity else 0
  }

  /**
   * What `addToPosition` weighs against the budget: the position and the
   * pending buy at the current price plus the added shares at the buy price.
   */
  function ValueAfterAdd(position: real, currentPrice: real, pendingBuy: int, shares: int, buyPrice: real): real
  {
    position * currentPrice + pendingBuy as real * currentPrice + shares as real * buyPrice
  }

  /** The order `placeOrder` stores: pending, not filled, with the defaults of a new order elsewhere. */
  function NewOrder(orderId: int, symbol: string, action: OrderAction, quantity: int, price: real): (o: TradeOrder)
    ensures IsPending(o) && o.fillPrice == 0.0 && o.orderId == orderId && o.action == action
    ensures o.symbol == symbol && o.quantity == quantity && o.price == price
    ensures o.commission == 0.0 && o.permId == 0 && o.sortOrder == 0
  {
    DefaultOrder().(orderId := orderId, symbol := symbol, action := action, quantity := quantity, price := price)
  }

  /** `placeOrder` on the book: the order is stored under its id, which becomes the pending id of its side. */
  function Placed(b: Book, order: TradeOrder): (r: Book)
    ensures order.orderId in r.orders && r.orders[order.orderId] == order
    ensures PendingOf(r, order.action) == order.orderId
    ensures order.action == Buy ==> r.pendingSellOrderId == b.pendingSellOrderId
    ensures order.action == Sell ==> r.pendingBuyOrderId == b.pendingBuyOrderId
    ensures forall id :: id in b.orders && id != order.orderId ==> id in r.orders && r.orders[id] == b.orders[id]
    ensures Tracked(b) && FreshId(b, order.orderId) ==> Tracked(r)
  {
    var orders := b.orders[order.orderId := order];
    if order.action == Buy then b.(orders := orders, pendingBuyOrderId := order.orderId)
    else b.(orders := orders, pendingSellOrderId := order.orderId)
  }

  /**
   * `updatePendingOrder`: with no pending order on that side nothing changes;
   * otherwise the pending order is dropped and the replacement placed.
   */
  function Replaced(b: Book, order: TradeOrder): (r: Book)
    ensures PendingOf(b, order.action) < 0 ==> r == b
    ensures PendingOf(b, order.action) >= 0 ==>
      PendingOf(r, order.action) == order.orderId
      && (PendingOf(b, order.action) != order.orderId ==> PendingOf(b, order.action) !in r.orders)
      && order.orderId in r.orders && r.orders[order.orderId] == order
    ensures Tracked(b) && FreshId(b, order.orderId) ==> Tracked(r)
  {
    var old_id := PendingOf(b, order.action);
    if old_id < 0 then b
    else Placed(b.(orders := b.orders - {old_id}), order)
  }

  /**
   * `onError` on the book: an error for a stored order id above 0 drops the
   * order and clears any pending id equal to it; any other error changes nothing.
   */
  function Errored(b: Book, id: int): (r: Book)
    ensures id > 0 ==> id !in r.orders
    ensures !(id > 0 && id in b.orders) ==> r == b
    ensures id > 0 && id in b.orders ==>
      r.orders == b.orders - {id}
      && r.pendingBuyOrderId == (if b.pendingBuyOrderId == id then -1 else b.pendingBuyOrderId)
      && r.pendingSellOrderId == (if b.pendingSellOrderId == id then -1 else b.pendingSellOrderId)
    ensures Tracked(b) ==> Tracked(r) && (id > 0 ==> r.pendingBuyOrderId != id && r.pendingSellOrderId != id)
  {
    if id > 0 && id in b.orders then
      Book(b.orders - {id},
           if b.pendingBuyOrderId == id then -1 else b.pendingBuyOrderId,
           if b.pendingSellOrderId == id then -1 else b.pendingSellOrderId)
    else b
  }

  /** The status text of an order-status callback: "Filled", "Cancelled", anything else pending. */
  function StatusOf(text: string): (s: OrderStatus)
    ensures s == Filled <==> text == "Filled"
    ensures s == Cancelled <==> text == "Cancelled"
    ensures s == Pending <==> text != "Filled" && text != "Cancelled"
  {
    if text == "Filled" then Filled else if text == "Cancelled" then Cancelled else Pending
  }

  /**
   * `onOrderStatusUpdated` on the book: the stored order takes the new status
   * and fill price; a filled buy clears a matching pending buy id, a filled
   * sell a matching pending sell id, a cancel whichever pending id matches.
   */
  function StatusApplied(b: Book, orderId: int, statusText: string, avgFillPrice: real): (r: Book)
    ensures orderId !in b.orders ==> r == b
    ensures orderId in b.orders ==>
      var o := b.orders[orderId].(status := StatusOf(statusText), fillPrice := avgFillPrice);
      r.orders == b.orders[orderId := o]
      && r.pendingBuyOrderId == (if orderId == b.pendingBuyOrderId && (IsCancelled(o) || (IsFilled(o) && IsBuy(o)))
                                 then -1 else b.pendingBuyOrderId)
      && r.pendingSellOrderId == (if orderId == b.pendingSellOrderId && (IsCancelled(o) || (IsFilled(o) && IsSell(o)))
                                  then -1 else b.pendingSellOrderId)
    ensures Tracked(b) ==> Tracked(r)
  {
    if orderId !in b.orders then b
    else
      var o := b.orders[orderId].(status := StatusOf(statusText), fillPrice := avgFillPrice);
      var clearBuy := orderId == b.pendingBuyOrderId && (IsCancelled(o) || (IsFilled(o) && IsBuy(o)));
      var clearSell := orderId == b.pendingSellOrderId && (IsCancelled(o) || (IsFilled(o) && IsSell(o)));
      Book(b.orders[orderId := o],
           if clearBuy then -1 else b.pendingBuyOrderId,
           if clearSell then -1 else b.pendingSellOrderId)
  }

  /** `m_positions.value(symbol, 0.0)`. */
  function PositionOf(positions: map<string, real>, symbol: string): real
  {
    if symbol in positions then positions[symbol] else 0.0
  }

  /**
   * The position update of a status callback. As written, the new position of
   * the order's symbol is computed from the position of the current symbol.
   */
  function PositionsAfterStatus(positions: map<string, real>, currentSymbol: string, o: TradeOrder, filled: real)
    : (r: map<string, real>)
    ensures !IsFilled(o) ==> r == positions
    ensures IsFilled(o) ==> o.symbol in r && forall s :: s in positions && s != o.symbol ==> s in r && r[s] == positions[s]
    ensures IsFilled(o) && IsBuy(o) ==> r[o.symbol] == PositionOf(positions, currentSymbol) + filled
    ensures IsFilled(o) && IsSell(o) ==> r[o.symbol] == PositionOf(positions, currentSymbol) - filled
  {
    if !IsFilled(o) then positions
    else if IsBuy(o) then positions[o.symbol := PositionOf(positions, currentSymbol) + filled]
    else positions[o.symbol := PositionOf(positions, currentSymbol) - filled]
  }

  /** `static_cast<int>` of a real: truncation toward zero. */
  function Trunc(x: real): (n: int)
    ensures x >= 0.0 ==> n >= 0 && n as real <= x < n as real + 1.0
    ensures x < 0.0 ==> n <= 0 && n as real - 1.0 < x <= n as real
  {
    if x >= 0.0 then x.Floor else -((-x).Floor)
  }

  /** The time in force and the outside-regular-hours flag of a new order. */
  function Tif(regularHours: bool): string
  {
    if regularHours then "DAY" else "GTC"
  }

  /** The orders `cancelAllOrders` sweeps: pending orders of the current symbol. */
  function SweptIds(orders: map<int, TradeOrder>, symbol: string): set<int>
  {
    set id | id in orders && orders[id].symbol == symbol && IsPending(orders[id])
  }

  class TradingManager {
    var currentSymbol: string
    var currentExchange: string
    var currentPrice: real
    var bidPrice: real
    var askPrice: real
    var positions: map<string, real>
    var avgCosts: map<string, real>
    var book: Book
    var currentSellBidOffset: int
    var sellMonitorActive: bool

    /** Nothing but the book and the sell offset changed. */
    twostate predicate MarketKept()
      reads this
    {
      currentSymbol == old(currentSymbol) && currentExchange == old(currentExchange)
      && currentPrice == old(currentPrice) && bidPrice == old(bidPrice) && askPrice == old(askPrice)
      && positions == old(positions) && avgCosts == old(avgCosts) && sellMonitorActive == old(sellMonitorActive)
    }

    constructor()
      ensures currentSymbol == "" && currentExchange == "" && book == EmptyBook && positions == map[]
      ensures currentPrice == 0.0 && bidPrice == 0.0 && askPrice == 0.0 && currentSellBidOffset == 0
      ensures avgCosts == map[] && !sellMonitorActive
    {
      currentSymbol, currentExchange := "", "";
      currentPrice, bidPrice, askPrice := 0.0, 0.0, 0.0;
      positions, avgCosts := map[], map[];
      book := EmptyBook;
      currentSellBidOffset := 0;
      sellMonitorActive := false;
    }

    function CurrentPosition(): real
      reads this
    {
      PositionOf(positions, currentSymbol)
    }

    /**
     * `setSymbol`: the same symbol changes nothing; leaving a non-empty
     * symbol while holding a position is refused; otherwise the symbol
     * switches and, when non-empty, the sell-order monitor runs.
     */
    method SetSymbol(symbol: string) returns (warning: Option<Warning>)
      modifies this
      ensures warning == (if old(currentSymbol) != symbol && old(currentSymbol) != "" && old(CurrentPosition()) > 0.0
                          then Some(SwitchWithPosition) else None)
      ensures currentSymbol == (if old(currentSymbol) == symbol || warning.Some? then old(currentSymbol) else symbol)
      ensures sellMonitorActive == (old(sellMonitorActive) || (old(currentSymbol) != symbol && warning.None? && symbol != ""))
      ensures currentExchange == old(currentExchange) && positions == old(positions) && book == old(book)
      ensures currentSellBidOffset == old(currentSellBidOffset)
      ensures currentPrice == old(currentPrice) && bidPrice == old(bidPrice) && askPrice == old(askPrice)
      ensures avgCosts == old(avgCosts)
    {
      warning := None;
      if currentSymbol == symbol {
        return;
      }
      if currentSymbol != "" && CurrentPosition() > 0.0 {
        return Some(SwitchWithPosition);
      }
      currentSymbol := symbol;
      if symbol != "" {
        sellMonitorActive := true;
      }
    }

    /** `setSymbolExchange`: the exchange is taken only for the current symbol. */
    method SetSymbolExchange(symbol: string, exchange: string)
      modifies this
      ensures currentExchange == (if old(currentSymbol) == symbol then exchange else old(currentExchange))
      ensures currentSymbol == old(currentSymbol) && book == old(book) && positions == old(positions)
      ensures currentPrice == old(currentPrice) && bidPrice == old(bidPrice) && askPrice == old(askPrice)
      ensures avgCosts == old(avgCosts) && currentSellBidOffset == old(currentSellBidOffset)
      ensures sellMonitorActive == old(sellMonitorActive)
    {
      if currentSymbol == symbol {
        currentExchange := exchange;
      }
    }

    /** The limit order `placeOrder` sends for the current symbol and exchange: DAY in regular hours, else GTC outside them. */
    function LimitCall(side: OrderAction, quantity: int, price: real, regularHours: bool): ClientCall
      reads this
    {
      PlaceLimitOrder(currentSymbol, side, quantity, price, Tif(regularHours), !regularHours, currentExchange)
    }

    /** `placeOrder`: `orderId` is what the client returned for the limit order. */
    method PlaceOrder(action: OrderAction, quantity: int, price: real, orderId: int, regularHours: bool)
      returns (call: ClientCall)
      modifies this
      ensures call == PlaceLimitOrder(currentSymbol, action, quantity, price, Tif(regularHours), !regularHours, currentExchange)
      ensures book == Placed(old(book), NewOrder(orderId, currentSymbol, action, quantity, price))
      ensures MarketKept() && currentSellBidOffset == old(currentSellBidOffset)
    {
      call := PlaceLimitOrder(currentSymbol, action, quantity, price, Tif(regularHours), !regularHours, currentExchange);
      var order := NewOrder(orderId, currentSymbol, action, quantity, price);
      book := book.(orders := book.orders[orderId := order]);
      if action == Buy {
        book := book.(pendingBuyOrderId := orderId);
      } else {
        book := book.(pendingSellOrderId := orderId);
      }
    }

    /** `updatePendingOrder` for the pending order of one side: cancel it, then place the replacement. */
    method UpdatePendingOrder(side: OrderAction, quantity: int, price: real, orderId: int, regularHours: bool)
      returns (calls: seq<ClientCall>)
      modifies this
      ensures var pending := PendingOf(old(book), side);
        calls == (if pending < 0 then []
                  else [CancelOrder(pending),
                        PlaceLimitOrder(currentSymbol, side, quantity, price, Tif(regularHours), !regularHours, currentExchange)])
      ensures book == Replaced(old(book), NewOrder(orderId, currentSymbol, side, quantity, price))
      ensures MarketKept() && currentSellBidOffset == old(currentSellBidOffset)
    {
      var pending := PendingOf(book, side);
      if pending < 0 {
        return [];
      }
      book := book.(orders := book.orders - {pending});
      var call := PlaceOrder(side, quantity, price, orderId, regularHours);
      calls := [CancelOrder(pending), call];
    }

    /**
     * `openPosition`: refused without a symbol, with a position, or when the
     * share count (computed by the caller from the budget) is not positive;
     * otherwise a pending buy with a quantity is replaced and, without one, a
     * buy is placed at the ask plus the ask offset in cents.
     */
    method OpenPosition(shares: int, askOffset: int, orderId: int, regularHours: bool)
      returns (warning: Option<Warning>, calls: seq<ClientCall>)
      modifies this
      ensures old(currentSymbol) == "" ==> warning == Some(NoSymbol)
      ensures old(currentSymbol) != "" && old(CurrentPosition()) > 0.0 ==> warning == Some(PositionExists)
      ensures old(currentSymbol) != "" && old(CurrentPosition()) <= 0.0 && shares <= 0 ==>
        warning == Some(if askPrice <= 0.0 && currentPrice <= 0.0 then NoMarketData else ZeroShares)
      ensures warning.Some? ==> calls == [] && book == old(book)
      ensures warning.None? <==> old(currentSymbol) != "" && old(CurrentPosition()) <= 0.0 && shares > 0
      ensures warning.None? ==>
        var order := NewOrder(orderId, currentSymbol, Buy, shares, askPrice + askOffset as real / 100.0);
        if PendingQuantity(old(book), Buy) > 0 then
          book == Replaced(old(book), order)
          && calls == [CancelOrder(old(book).pendingBuyOrderId), LimitCall(Buy, shares, order.price, regularHours)]
        else book == Placed(old(book), order) && calls == [LimitCall(Buy, shares, order.price, regularHours)]
      ensures MarketKept() && currentSellBidOffset == old(currentSellBidOffset)
    {
      calls := [];
      if currentSymbol == "" {
        return Some(NoSymbol), [];
      }
      if CurrentPosition() > 0.0 {
        return Some(PositionExists), [];
      }
      if shares <= 0 {
        if askPrice <= 0.0 && currentPrice <= 0.0 {
          return Some(NoMarketData), [];
        }
        return Some(ZeroShares), [];
      }
      warning := None;
      var price := askPrice + askOffset as real / 100.0;
      if PendingQuantity(book, Buy) > 0 {
        calls := UpdatePendingOrder(Buy, shares, price, orderId, regularHours);
      } else {
        var call := PlaceOrder(Buy, shares, price, orderId, regularHours);
        calls := [call];
      }
    }

    /**
     * `addToPosition`: refused without a symbol, without a position, with a
     * non-positive share count, or when the position, the pending buy and the
     * addition together would be worth more than the budget; otherwise the
     * pending buy grows by the shares, or a buy is placed.
     */
    method AddToPosition(shares: int, budget: real, askOffset: int, orderId: int, regularHours: bool)
      returns (warning: Option<Warning>, calls: seq<ClientCall>)
      modifies this
      ensures old(currentSymbol) == "" ==> warning == Some(NoSymbol)
      ensures old(currentSymbol) != "" && old(CurrentPosition()) <= 0.0 ==> warning == Some(NoPosition)
      ensures old(currentSymbol) != "" && old(CurrentPosition()) > 0.0 && shares <= 0 ==>
        warning == Some(if old(askPrice) <= 0.0 && old(currentPrice) <= 0.0 then NoMarketData else ZeroShares)
      ensures old(currentSymbol) != "" && old(CurrentPosition()) > 0.0 && shares > 0 ==>
        (warning == Some(OverBudget) <==>
           ValueAfterAdd(old(CurrentPosition()), old(currentPrice), PendingQuantity(old(book), Buy), shares,
                         old(askPrice) + askOffset as real / 100.0) > budget)
      ensures warning.Some? ==> calls == [] && book == old(book)
      ensures warning.None? <==>
        old(currentSymbol) != "" && old(CurrentPosition()) > 0.0 && shares > 0
        && ValueAfterAdd(old(CurrentPosition()), old(currentPrice), PendingQuantity(old(book), Buy), shares,
                         old(askPrice) + askOffset as real / 100.0) <= budget
      ensures warning.None? && old(book).pendingBuyOrderId >= 0 ==>
        var pendingId := old(book).pendingBuyOrderId;
        var quantity := (if pendingId in old(book).orders then old(book).orders[pendingId].quantity else 0) + shares;
        book == Replaced(old(book), NewOrder(orderId, currentSymbol, Buy, quantity, askPrice + askOffset as real / 100.0))
        && calls == [CancelOrder(pendingId), LimitCall(Buy, quantity, askPrice + askOffset as real / 100.0, regularHours)]
      ensures warning.None? && old(book).pendingBuyOrderId < 0 ==>
        book == Placed(old(book), NewOrder(orderId, currentSymbol, Buy, shares, askPrice + askOffset as real / 100.0))
        && calls == [LimitCall(Buy, shares, askPrice + askOffset as real / 100.0, regularHours)]
      ensures MarketKept() && currentSellBidOffset == old(currentSellBidOffset)
    {
      calls := [];
      if currentSymbol == "" {
        return Some(NoSymbol), [];
      }
      if CurrentPosition() <= 0.0 {
        return Some(NoPosition), [];
      }
      if shares <= 0 {
        if askPrice <= 0.0 && currentPrice <= 0.0 {
          return Some(NoMarketData), [];
        }
        return Some(ZeroShares), [];
      }
      var price := askPrice + askOffset as real / 100.0;
      var currentValue := CurrentPosition() * currentPrice;
      var pendingValue := PendingQuantity(book, Buy) as real * currentPrice;
      var additionalValue := shares as real * price;
      assert currentValue + pendingValue + additionalValue
        == ValueAfterAdd(CurrentPosition(), currentPrice, PendingQuantity(book, Buy), shares, price);
      if currentValue + pendingValue + additionalValue > budget {
        return Some(OverBudget), [];
      }
      warning := None;
      if book.pendingBuyOrderId >= 0 {
        var pendingId := book.pendingBuyOrderId;
        var order := if pendingId in book.orders then book.orders[pendingId] else DefaultOrder();
        book := book.(orders := book.orders[pendingId := order]);
        calls := UpdatePendingOrder(Buy, order.quantity + shares, price, orderId, regularHours);
      } else {
        var call := PlaceOrder(Buy, shares, price, orderId, regularHours);
        calls := [call];
      }
    }

    /**
     * `closePosition`: sells the truncated percentage of the position; a
     * pending sell is cancelled first and the sell offset reset to the
     * setting. No symbol, no position or nothing to sell changes nothing.
     */
    method ClosePosition(percentage: int, bidOffset: int, orderId: int, regularHours: bool)
      returns (warning: Option<Warning>, calls: seq<ClientCall>)
      modifies this
      ensures old(currentSymbol) == "" ==> warning == Some(NoSymbol)
      ensures old(currentSymbol) != "" && old(CurrentPosition()) <= 0.0 ==> warning == Some(NothingToClose)
      ensures warning.Some? <==> old(currentSymbol) == "" || old(CurrentPosition()) <= 0.0
      ensures var sharesToSell := Trunc(old(CurrentPosition()) * percentage as real / 100.0);
        if old(currentSymbol) == "" || old(CurrentPosition()) <= 0.0 || sharesToSell <= 0 then
          calls == [] && book == old(book) && currentSellBidOffset == old(currentSellBidOffset)
        else
          var cleared := if old(book).pendingSellOrderId >= 0 then old(book).(pendingSellOrderId := -1) else old(book);
          var place := PlaceLimitOrder(currentSymbol, Sell, sharesToSell, bidPrice - bidOffset as real / 100.0,
                                       Tif(regularHours), !regularHours, currentExchange);
          warning == None && currentSellBidOffset == bidOffset
          && book == Placed(cleared, NewOrder(orderId, currentSymbol, Sell, sharesToSell, bidPrice - bidOffset as real / 100.0))
          && calls == (if old(book).pendingSellOrderId >= 0 then [CancelOrder(old(book).pendingSellOrderId), place] else [place])
      ensures MarketKept()
    {
      calls := [];
      warning := None;
      if currentSymbol == "" {
        return Some(NoSymbol), [];
      }
      var currentPosition := CurrentPosition();
      if currentPosition <= 0.0 {
        return Some(NothingToClose), [];
      }
      var sharesToSell := Trunc(currentPosition * percentage as real / 100.0);
      if sharesToSell <= 0 {
        return;
      }
      if book.pendingSellOrderId >= 0 {
        calls := [CancelOrder(book.pendingSellOrderId)];
        book := book.(pendingSellOrderId := -1);
      }
      currentSellBidOffset := bidOffset;
      var call := PlaceOrder(Sell, sharesToSell, bidPrice - currentSellBidOffset as real / 100.0, orderId, regularHours);
      calls := calls + [call];
      assert book == Placed(old(book).(pendingSellOrderId := -1), NewOrder(orderId, currentSymbol, Sell, sharesToSell, bidPrice - bidOffset as real / 100.0));
      assert sharesToSell == Trunc(old(CurrentPosition()) * percentage as real / 100.0);
    }

    /**
     * `cancelAllOrders`: both pending orders are cancelled and their ids
     * cleared, then every pending order of the current symbol is cancelled.
     */
    method CancelAllOrders() returns (calls: seq<ClientCall>, swept: set<int>)
      modifies this
      ensures book.orders == old(book).orders && book.pendingBuyOrderId < 0 && book.pendingSellOrderId < 0
      ensures old(book).pendingBuyOrderId < 0 ==> book.pendingBuyOrderId == old(book).pendingBuyOrderId
      ensures old(book).pendingSellOrderId < 0 ==> book.pendingSellOrderId == old(book).pendingSellOrderId
      ensures calls == (if old(book).pendingBuyOrderId >= 0 then [CancelOrder(old(book).pendingBuyOrderId)] else [])
                     + (if old(book).pendingSellOrderId >= 0 then [CancelOrder(old(book).pendingSellOrderId)] else [])
      ensures swept == SweptIds(book.orders, currentSymbol)
      ensures MarketKept() && currentSellBidOffset == old(currentSellBidOffset)
    {
      calls := [];
      if book.pendingBuyOrderId >= 0 {
        calls := calls + [CancelOrder(book.pendingBuyOrderId)];
        book := book.(pendingBuyOrderId := -1);
      }
      if book.pendingSellOrderId >= 0 {
        calls := calls + [CancelOrder(book.pendingSellOrderId)];
        book := book.(pendingSellOrderId := -1);
      }
      swept := {};
      var remaining := book.orders.Keys;
      while remaining != {}
        modifies {}
        invariant remaining <= book.orders.Keys
        invariant swept == SweptIds(book.orders, currentSymbol) - remaining
        decreases remaining
      {
        EmptyOrElement(remaining);
        var id :| id in remaining;
        if book.orders[id].symbol == currentSymbol && IsPending(book.orders[id]) {
          swept := swept + {id};
        }
        remaining := remaining - {id};
      }
    }

    /**
     * `onTickByTickUpdated`: the quotes are stored; a pending buy whose price
     * the ask has moved above is replaced at the ask plus the ask offset.
     */
    method OnTickByTickUpdated(price: real, bid: real, ask: real, askOffset: int, orderId: int, regularHours: bool)
      returns (calls: seq<ClientCall>)
      modifies this
      ensures currentPrice == price && bidPrice == bid && askPrice == ask
      ensures var id := old(book).pendingBuyOrderId;
        if id >= 0 && id in old(book).orders && ask > old(book).orders[id].price then
          book == Replaced(old(book), NewOrder(orderId, currentSymbol, Buy, old(book).orders[id].quantity,
                                               ask + askOffset as real / 100.0))
          && calls == [CancelOrder(id), LimitCall(Buy, old(book).orders[id].quantity, ask + askOffset as real / 100.0,
                                                  regularHours)]
        else book == old(book) && calls == []
      ensures currentSymbol == old(currentSymbol) && currentExchange == old(currentExchange)
      ensures positions == old(positions) && avgCosts == old(avgCosts) && sellMonitorActive == old(sellMonitorActive)
      ensures currentSellBidOffset == old(currentSellBidOffset)
    {
      currentPrice, bidPrice, askPrice := price, bid, ask;
      calls := [];
      var id := book.pendingBuyOrderId;
      if id >= 0 && id in book.orders {
        var order := book.orders[id];
        var targetPrice := askPrice + askOffset as real / 100.0;
        if askPrice > order.price {
          calls := UpdatePendingOrder(Buy, order.quantity, targetPrice, orderId, regularHours);
        }
      }
    }

    /** `onOrderConfirmed`: a confirmation of a stored order hands that order on. */
    method OnOrderConfirmed(orderId: int) returns (placed: Option<TradeOrder>)
      ensures placed == (if orderId in book.orders then Some(book.orders[orderId]) else None)
    {
      placed := if orderId in book.orders then Some(book.orders[orderId]) else None;
    }

    /** `onError`: an order error drops the order; a cleared pending sell resets the sell offset. */
    method OnError(id: int, message: string, bidOffset: int) returns (failure: Option<string>)
      modifies this
      ensures book == Errored(old(book), id)
      ensures failure == (if id > 0 && id in old(book).orders then Some("Order failed: " + message) else None)
      ensures currentSellBidOffset
        == (if id > 0 && id in old(book).orders && id == old(book).pendingSellOrderId then bidOffset
            else old(currentSellBidOffset))
      ensures MarketKept()
    {
      failure := None;
      if id > 0 && id in book.orders {
        book := book.(orders := book.orders - {id});
        if id == book.pendingBuyOrderId {
          book := book.(pendingBuyOrderId := -1);
        }
        if id == book.pendingSellOrderId {
          book := book.(pendingSellOrderId := -1);
          currentSellBidOffset := bidOffset;
        }
        failure := Some("Order failed: " + message);
      }
    }

    /**
     * `onOrderStatusUpdated`: the order takes the status and fill price; a
     * fill moves the position and clears the matching pending id; a cancel
     * clears the matching pending ids; the updated order is handed on.
     */
    method OnOrderStatusUpdated(orderId: int, status: string, filled: real, avgFillPrice: real, bidOffset: int)
      returns (cancelled: bool, updated: Option<TradeOrder>)
      modifies this
      ensures book == StatusApplied(old(book), orderId, status, avgFillPrice)
      ensures orderId !in old(book).orders ==>
        !cancelled && updated == None && positions == old(positions)
        && currentSellBidOffset == old(currentSellBidOffset)
      ensures orderId in old(book).orders ==>
        var o := book.orders[orderId];
        updated == Some(o) && cancelled == IsCancelled(o)
        && positions == PositionsAfterStatus(old(positions), currentSymbol, o, filled)
        && currentSellBidOffset
           == (if orderId == old(book).pendingSellOrderId && (IsCancelled(o) || (IsFilled(o) && IsSell(o)))
               then bidOffset else old(currentSellBidOffset))
      ensures currentSymbol == old(currentSymbol) && currentExchange == old(currentExchange)
      ensures currentPrice == old(currentPrice) && bidPrice == old(bidPrice) && askPrice == old(askPrice)
      ensures avgCosts == old(avgCosts) && sellMonitorActive == old(sellMonitorActive)
    {
      cancelled, updated := false, None;
      if orderId !in book.orders {
        return;
      }
      var order := book.orders[orderId].(status := StatusOf(status), fillPrice := avgFillPrice);
      book := book.(orders := book.orders[orderId := order]);
      if IsFilled(order) {
        if IsBuy(order) {
          positions := positions[order.symbol := CurrentPosition() + filled];
          if orderId == book.pendingBuyOrderId {
            book := book.(pendingBuyOrderId := -1);
          }
        } else if IsSell(order) {
          positions := positions[order.symbol := CurrentPosition() - filled];
          if orderId == book.pendingSellOrderId {
            book := book.(pendingSellOrderId := -1);
            currentSellBidOffset := bidOffset;
          }
        }
      } else if IsCancelled(order) {
        if orderId == book.pendingBuyOrderId {
          book := book.(pendingBuyOrderId := -1);
        }
        if orderId == book.pendingSellOrderId {
          book := book.(pendingSellOrderId := -1);
          currentSellBidOffset := bidOffset;
        }
        cancelled := true;
      }
      updated := Some(order);
    }

    /**
     * `checkAndUpdateSellOrders`: when the bid has dropped below the pending
     * sell's price, the sell offset doubles and the sell is replaced at the
     * bid minus the offset in cents.
     */
    method CheckAndUpdateSellOrders(orderId: int, regularHours: bool) returns (calls: seq<ClientCall>)
      modifies this
      ensures var id := old(book).pendingSellOrderId;
        if id >= 0 && id in old(book).orders && IsPending(old(book).orders[id]) && bidPrice < old(book).orders[id].price then
          currentSellBidOffset == old(currentSellBidOffset) * 2
          && book == Replaced(old(book), NewOrder(orderId, currentSymbol, Sell, old(book).orders[id].quantity,
                                                  bidPrice - currentSellBidOffset as real / 100.0))
          && calls == [CancelOrder(id), LimitCall(Sell, old(book).orders[id].quantity,
                                                  bidPrice - currentSellBidOffset as real / 100.0, regularHours)]
        else book == old(book) && calls == [] && currentSellBidOffset == old(currentSellBidOffset)
      ensures MarketKept()
    {
      calls := [];
      var id := book.pendingSellOrderId;
      if id < 0 || id !in book.orders {
        return;
      }
      var order := book.orders[id];
      if !IsPending(order) {
        return;
      }
      if bidPrice < order.price {
        currentSellBidOffset := currentSellBidOffset * 2;
        calls := UpdatePendingOrder(Sell, order.quantity, bidPrice - currentSellBidOffset as real / 100.0,
                                    orderId, regularHours);
      }
    }

    /** The position callback: only positions of the active account are kept. */
    method OnPositionUpdated(account: string, activeAccount: string, symbol: string, position: real, avgCost: real)
      returns (emitted: bool)
      modifies this
      ensures emitted == (account == activeAccount)
      ensures positions == (if emitted then old(positions)[symbol := position] else old(positions))
      ensures avgCosts == (if emitted then old(avgCosts)[symbol := avgCost] else old(avgCosts))
      ensures book == old(book) && currentSymbol == old(currentSymbol) && currentExchange == old(currentExchange)
      ensures currentPrice == old(currentPrice) && bidPrice == old(bidPrice) && askPrice == old(askPrice)
      ensures currentSellBidOffset == old(currentSellBidOffset) && sellMonitorActive == old(sellMonitorActive)
    {
      emitted := account == activeAccount;
      if emitted {
        positions := positions[symbol := position];
        avgCosts := avgCosts[symbol := avgCost];
      }
    }
  }

  /**
   * An error for an order just placed under a fresh positive id takes the
   * book back to where it was, with no pending order on that side.
   */
  lemma PlacedThenErrored(b: Book, order: TradeOrder)
    requires Tracked(b) && order.orderId > 0 && order.orderId !in b.orders
    ensures var r := Errored(Placed(b, order), order.orderId);
      r.orders == b.orders
      && PendingOf(r, order.action) == -1
      && (order.action == Buy ==> r.pendingSellOrderId == b.pendingSellOrderId)
      && (order.action == Sell ==> r.pendingBuyOrderId == b.pendingBuyOrderId)
  {
    var p := Placed(b, order);
    assert p.orders - {order.orderId} == b.orders;
  }

  /**
   * A fill of a buy order of the current symbol adds the filled quantity to
   * that symbol's position; a fill of a sell subtracts it.
   */
  lemma FillMovesPosition(positions: map<string, real>, symbol: string, o: TradeOrder, filled: real)
    requires IsFilled(o) && o.symbol == symbol
    ensures IsBuy(o) ==> PositionOf(PositionsAfterStatus(positions, symbol, o, filled), symbol)
                         == PositionOf(positions, symbol) + filled
    ensures IsSell(o) ==> PositionOf(PositionsAfterStatus(positions, symbol, o, filled), symbol)
                          == PositionOf(positions, symbol) - filled
  {
  }

  /** After a status update the order is pending, filled or cancelled exactly as the status text says. */
  lemma StatusTextDecides(b: Book, orderId: int, statusText: string, avgFillPrice: real)
    requires orderId in b.orders
    ensures var o := StatusApplied(b, orderId, statusText, avgFillPrice).orders[orderId];
      (IsFilled(o) <==> statusText == "Filled") && (IsCancelled(o) <==> statusText == "Cancelled")
      && o.fillPrice == avgFillPrice
  {
  }
}
