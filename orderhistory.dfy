/**
 * The order history widget: the orders by id, the "current" table (orders
 * still working) and the "all" table, the positions kept in memory and the
 * positions table, and the switch that shows or hides cancelled orders and
 * zero positions. A table row is identified by the order id (or symbol) it
 * was made for; the order tables keep the status and the open and close
 * prices a row shows.
 */
module OrderHistory {
  import opened Order
  import Seqs

  /** A row of an order table. */
  datatype OrderRow = OrderRow(orderId: int, symbol: string, status: OrderStatus, openPrice: real, closePrice: real)

  /** A position as kept in memory. */
  datatype Position = Position(symbol: string, quantity: real, avgCost: real, currentPrice: real)

  /** A default-constructed position: no symbol, nothing held. */
  const NoPosition := Position("", 0.0, 0.0, 0.0)

  /** `addOrderToTable`: the open price is a buy's fill (or limit) price, the close price a sell's. */
  function RowOf(o: TradeOrder): (r: OrderRow)
    ensures r.orderId == o.orderId && r.symbol == o.symbol && r.status == o.status
    ensures r.openPrice == (if IsBuy(o) then (if IsFilled(o) then o.fillPrice else o.price) else 0.0)
    ensures r.closePrice == (if IsSell(o) then (if IsFilled(o) then o.fillPrice else o.price) else 0.0)
  {
    OrderRow(o.orderId, o.symbol, o.status,
             if IsBuy(o) then (if IsFilled(o) then o.fillPrice else o.price) else 0.0,
             if IsSell(o) then (if IsFilled(o) then o.fillPrice else o.price) else 0.0)
  }

  /** `updateOrderInTable`: the status follows the order; a fill sets the open or close price. */
  function Refreshed(r: OrderRow, o: TradeOrder): (u: OrderRow)
    ensures u.orderId == r.orderId && u.symbol == r.symbol && u.status == o.status
    ensures u.openPrice == (if IsBuy(o) && IsFilled(o) then o.fillPrice else r.openPrice)
    ensures u.closePrice == (if IsSell(o) && IsFilled(o) then o.fillPrice else r.closePrice)
  {
    r.(status := o.status,
       openPrice := if IsBuy(o) && IsFilled(o) then o.fillPrice else r.openPrice,
       closePrice := if IsSell(o) && IsFilled(o) then o.fillPrice else r.closePrice)
  }

  /** The first row holding an order id, or -1. */
  function FirstRow(t: seq<OrderRow>, id: int): (r: int)
    ensures -1 <= r < |t|
    ensures r >= 0 ==> t[r].orderId == id && forall k :: 0 <= k < r ==> t[k].orderId != id
    ensures r < 0 <==> forall k :: 0 <= k < |t| ==> t[k].orderId != id
    decreases |t|
  {
    if |t| == 0 then -1
    else if t[0].orderId == id then 0
    else
      var r := FirstRow(t[1..], id);
      if r < 0 then -1 else r + 1
  }

  /** The table without the first row holding an order id. */
  function RemoveFirst(t: seq<OrderRow>, id: int): seq<OrderRow>
  {
    var r := FirstRow(t, id);
    if r < 0 then t else Seqs.RemoveAt(t, r)
  }

  /** The table with the first row holding the order's id refreshed from it. */
  function RefreshRow(t: seq<OrderRow>, o: TradeOrder): seq<OrderRow>
  {
    var r := FirstRow(t, o.orderId);
    if r < 0 then t else t[r := Refreshed(t[r], o)]
  }

  /** `updateOrder` on the current table: a filled or cancelled order's row leaves, a working one is refreshed. */
  function CurrentAfterUpdate(t: seq<OrderRow>, o: TradeOrder): seq<OrderRow>
  {
    if IsFilled(o) || IsCancelled(o) then RemoveFirst(t, o.orderId) else RefreshRow(t, o)
  }

  /** The table after removing the first row of each id in turn. */
  function RemoveEach(t: seq<OrderRow>, ids: seq<int>): seq<OrderRow>
    decreases |ids|
  {
    if |ids| == 0 then t else RemoveFirst(RemoveEach(t, ids[..|ids| - 1]), ids[|ids| - 1])
  }

  /** The rows whose order id is outside `ids`, in order. */
  function Keep(t: seq<OrderRow>, ids: set<int>): (k: seq<OrderRow>)
    ensures forall r :: r in k ==> r in t && r.orderId !in ids
    decreases |t|
  {
    if |t| == 0 then []
    else if t[0].orderId in ids then Keep(t[1..], ids)
    else [t[0]] + Keep(t[1..], ids)
  }

  predicate DistinctIds(t: seq<OrderRow>)
  {
    forall i, j :: 0 <= i < j < |t| ==> t[i].orderId != t[j].orderId
  }

  /** The ids of the cancelled orders. */
  function CancelledIds(orders: map<int, TradeOrder>): (ids: set<int>)
    ensures forall id :: id in ids <==> id in orders && IsCancelled(orders[id])
  {
    set id | id in orders && IsCancelled(orders[id])
  }

  /** `findOrderRow`: the first row holding the id, or -1. */
  method FindOrderRow(t: seq<OrderRow>, id: int) returns (row: int)
    ensures -1 <= row < |t|
    ensures row >= 0 ==> t[row].orderId == id && forall k :: 0 <= k < row ==> t[k].orderId != id
    ensures row == -1 <==> forall k :: 0 <= k < |t| ==> t[k].orderId != id
    ensures row == FirstRow(t, id)
  {
    row := 0;
    while row < |t|
      invariant 0 <= row <= |t|
      invariant forall k :: 0 <= k < row ==> t[k].orderId != id
    {
      if t[row].orderId == id {
        return;
      }
      row := row + 1;
    }
    row := -1;
  }

  /** The table without the first row holding an order id, as `removeRow(findOrderRow(...))` leaves it. */
  method RemoveOrderRow(t: seq<OrderRow>, id: int) returns (u: seq<OrderRow>)
    ensures u == RemoveFirst(t, id)
    ensures |u| == (if FirstRow(t, id) >= 0 then |t| - 1 else |t|)
  {
    var row := FindOrderRow(t, id);
    u := t;
    if row >= 0 {
      u := t[..row] + t[row + 1..];
    }
  }

  /** The all table after `updateOrder`: the order's row refreshed when found. */
  method RefreshOrderRow(t: seq<OrderRow>, o: TradeOrder) returns (u: seq<OrderRow>)
    ensures u == RefreshRow(t, o)
  {
    var row := FindOrderRow(t, o.orderId);
    u := t;
    if row >= 0 {
      u := t[row := Refreshed(t[row], o)];
    }
  }

  /** The current table after `updateOrder`: the row refreshed, then dropped once the order is done. */
  method UpdateCurrentRow(t: seq<OrderRow>, o: TradeOrder) returns (u: seq<OrderRow>)
    ensures u == CurrentAfterUpdate(t, o)
  {
    var row := FindOrderRow(t, o.orderId);
    u := t;
    if row >= 0 {
      u := u[row := Refreshed(u[row], o)];
      if IsFilled(o) || IsCancelled(o) {
        u := u[..row] + u[row + 1..];
        assert u == t[..row] + t[row + 1..];
      }
    }
  }

  /**
   * The order part of hiding cancelled orders: every cancelled order's row
   * leaves both tables and the order leaves the map. `hidden` is the order
   * in which the ids were taken.
   */
  method HideCancelled(orders: map<int, TradeOrder>, current: seq<OrderRow>, all: seq<OrderRow>)
    returns (orders': map<int, TradeOrder>, current': seq<OrderRow>, all': seq<OrderRow>, hidden: seq<int>)
    ensures forall id :: id in hidden <==> id in CancelledIds(orders)
    ensures forall i, j :: 0 <= i < j < |hidden| ==> hidden[i] != hidden[j]
    ensures orders' == orders - CancelledIds(orders)
    ensures current' == RemoveEach(current, hidden) && all' == RemoveEach(all, hidden)
  {
    var cancelled := CancelledIds(orders);
    var remaining := cancelled;
    orders', current', all', hidden := orders, current, all, [];
    while remaining != {}
      invariant remaining <= cancelled
      invariant forall id :: id in hidden <==> id in cancelled && id !in remaining
      invariant forall i, j :: 0 <= i < j < |hidden| ==> hidden[i] != hidden[j]
      invariant orders' == orders - (cancelled - remaining)
      invariant current' == RemoveEach(current, hidden) && all' == RemoveEach(all, hidden)
      decreases |remaining|
    {
      Seqs.EmptyOrElement(remaining);
      var id :| id in remaining;
      current' := RemoveOrderRow(current', id);
      all' := RemoveOrderRow(all', id);
      HiddenOneMore(orders, cancelled, remaining, id);
      orders' := orders' - {id};
      RemoveEachSnoc(current, hidden, id);
      RemoveEachSnoc(all, hidden, id);
      hidden := hidden + [id];
      remaining := remaining - {id};
    }
  }

  lemma HiddenOneMore(orders: map<int, TradeOrder>, cancelled: set<int>, remaining: set<int>, id: int)
    requires id in remaining && remaining <= cancelled
    ensures (orders - (cancelled - remaining)) - {id} == orders - (cancelled - (remaining - {id}))
  {
  }

  lemma RemoveEachSnoc(t: seq<OrderRow>, hidden: seq<int>, id: int)
    ensures RemoveEach(t, hidden + [id]) == RemoveFirst(RemoveEach(t, hidden), id)
  {
    assert (hidden + [id])[..|hidden|] == hidden;
  }

  /** A fill's effect on a position: "BOT" adds the quantity, "SLD" subtracts it, any other side nothing. */
  function FillDelta(side: string, fillQuantity: int): (d: real)
    ensures side == "BOT" ==> d == fillQuantity as real
    ensures side == "SLD" ==> d == -(fillQuantity as real)
    ensures side != "BOT" && side != "SLD" ==> d == 0.0
  {
    if side == "BOT" then fillQuantity as real else if side == "SLD" then -(fillQuantity as real) else 0.0
  }

  /** `m_positions[symbol]`: a symbol seen for the first time gets a default-constructed position. */
  function PositionOf(positions: map<string, Position>, symbol: string): Position
  {
    if symbol in positions then positions[symbol] else NoPosition
  }

  /** The first row of the positions table showing a symbol, or -1. */
  function FirstSymbolRow(t: seq<string>, symbol: string): (r: int)
    ensures -1 <= r < |t|
    ensures r >= 0 ==> t[r] == symbol && forall k :: 0 <= k < r ==> t[k] != symbol
    ensures r < 0 <==> symbol !in t
    decreases |t|
  {
    if |t| == 0 then -1
    else if t[0] == symbol then 0
    else
      var r := FirstSymbolRow(t[1..], symbol);
      if r < 0 then -1 else r + 1
  }

  /**
   * `updatePosition` on the positions table: a position of quantity 0 or
   * less is taken out while zero positions are hidden; otherwise a symbol not
   * yet shown gets a new row.
   */
  function PositionRowsAfter(t: seq<string>, symbol: string, quantity: real, showZero: bool): seq<string>
  {
    var r := FirstSymbolRow(t, symbol);
    if quantity <= 0.0 && !showZero then (if r >= 0 then Seqs.RemoveAt(t, r) else t)
    else if r < 0 then t + [symbol]
    else t
  }

  predicate DistinctSymbols(t: seq<string>)
  {
    forall i, j :: 0 <= i < j < |t| ==> t[i] != t[j]
  }

  /** The loop of `updatePosition` that looks for the symbol's row. */
  method FindSymbolRow(t: seq<string>, symbol: string) returns (row: int)
    ensures row == FirstSymbolRow(t, symbol)
    ensures row >= 0 ==> t[row] == symbol
    ensures row == -1 <==> symbol !in t
  {
    row := -1;
    var i := 0;
    while i < |t|
      invariant 0 <= i <= |t|
      invariant forall k :: 0 <= k < i ==> t[k] != symbol
    {
      if t[i] == symbol {
        row := i;
        break;
      }
      i := i + 1;
    }
  }

  class OrderHistoryView {
    var orders: map<int, TradeOrder>
    var currentTable: seq<OrderRow>
    var allTable: seq<OrderRow>
    var positions: map<string, Position>
    var positionsTable: seq<string>
    var currentPrices: map<string, real>
    var showCancelledAndZero: bool

    /** Each order is stored under its own id, and the positions table shows each symbol at most once. */
    predicate Valid()
      reads this
    {
      (forall id :: id in orders ==> orders[id].orderId == id) && DistinctSymbols(positionsTable)
    }

    constructor()
      ensures orders == map[] && currentTable == [] && allTable == [] && positions == map[]
      ensures positionsTable == [] && currentPrices == map[] && !showCancelledAndZero
      ensures Valid()
    {
      orders, currentTable, allTable := map[], [], [];
      positions, positionsTable, currentPrices := map[], [], map[];
      showCancelledAndZero := false;
    }

    /** `addOrder`: stored under its id and appended to both tables. */
    method AddOrder(o: TradeOrder)
      requires Valid()
      modifies this
      ensures orders == old(orders)[o.orderId := o]
      ensures currentTable == old(currentTable) + [RowOf(o)] && allTable == old(allTable) + [RowOf(o)]
      ensures positions == old(positions) && positionsTable == old(positionsTable)
      ensures currentPrices == old(currentPrices) && showCancelledAndZero == old(showCancelledAndZero)
      ensures Valid()
    {
      orders := orders[o.orderId := o];
      currentTable := currentTable + [RowOf(o)];
      allTable := allTable + [RowOf(o)];
    }

    /**
     * `updateOrder`: the stored order is replaced; its current row is
     * refreshed, or removed once the order is filled or cancelled; its row in
     * the all table is refreshed.
     */
    method UpdateOrder(o: TradeOrder)
      requires Valid()
      modifies this
      ensures orders == old(orders)[o.orderId := o]
      ensures currentTable == CurrentAfterUpdate(old(currentTable), o)
      ensures allTable == RefreshRow(old(allTable), o)
      ensures positions == old(positions) && positionsTable == old(positionsTable)
      ensures currentPrices == old(currentPrices) && showCancelledAndZero == old(showCancelledAndZero)
      ensures Valid()
    {
      orders := orders[o.orderId := o];
      currentTable := UpdateCurrentRow(currentTable, o);
      allTable := RefreshOrderRow(allTable, o);
    }

    /**
     * `removeOrder`: an unknown id changes nothing; a cancelled order is
     * kept (and refreshed) while cancelled orders are shown; otherwise its
     * rows leave both tables and the order leaves the map.
     */
    method RemoveOrder(orderId: int)
      requires Valid()
      modifies this
      ensures orderId !in old(orders) ==>
        orders == old(orders) && currentTable == old(currentTable) && allTable == old(allTable)
      ensures orderId in old(orders) && old(showCancelledAndZero) && IsCancelled(old(orders)[orderId]) ==>
        orders == old(orders)
        && currentTable == CurrentAfterUpdate(old(currentTable), old(orders)[orderId])
        && allTable == RefreshRow(old(allTable), old(orders)[orderId])
      ensures orderId in old(orders) && !(old(showCancelledAndZero) && IsCancelled(old(orders)[orderId])) ==>
        orders == old(orders) - {orderId}
        && currentTable == RemoveFirst(old(currentTable), orderId)
        && allTable == RemoveFirst(old(allTable), orderId)
      ensures positions == old(positions) && positionsTable == old(positionsTable)
      ensures currentPrices == old(currentPrices) && showCancelledAndZero == old(showCancelledAndZero)
      ensures Valid()
    {
      if orderId !in orders {
        return;
      }
      var order := orders[orderId];
      if showCancelledAndZero && IsCancelled(order) {
        assert orders[orderId := order] == orders;
        UpdateOrder(order);
        return;
      }
      currentTable := RemoveOrderRow(currentTable, orderId);
      allTable := RemoveOrderRow(allTable, orderId);
      orders := orders - {orderId};
    }

    /**
     * `setShowCancelledAndZeroPositions`, order part: showing changes no
     * order; hiding removes every cancelled order from the map and both
     * tables. `hidden` lists the removed ids in the order they were taken.
     */
    method SetShowCancelledAndZeroPositions(show: bool) returns (hidden: seq<int>)
      requires Valid()
      modifies this
      ensures showCancelledAndZero == show
      ensures show ==>
        hidden == [] && orders == old(orders) && currentTable == old(currentTable) && allTable == old(allTable)
      ensures !show ==>
        (forall id :: id in hidden <==> id in CancelledIds(old(orders)))
        && (forall i, j :: 0 <= i < j < |hidden| ==> hidden[i] != hidden[j])
        && orders == old(orders) - CancelledIds(old(orders))
        && currentTable == RemoveEach(old(currentTable), hidden)
        && allTable == RemoveEach(old(allTable), hidden)
      ensures positions == old(positions) && positionsTable == old(positionsTable)
      ensures currentPrices == old(currentPrices)
      ensures Valid()
    {
      showCancelledAndZero := show;
      hidden := [];
      if !show {
        orders, currentTable, allTable, hidden := HideCancelled(orders, currentTable, allTable);
      }
    }

    /** `updatePositionQuantityAfterFill`: the fill moves the quantity in memory, nothing else. */
    method UpdatePositionQuantityAfterFill(symbol: string, side: string, fillQuantity: int)
      requires Valid()
      modifies this
      ensures positions == old(positions)[symbol :=
        PositionOf(old(positions), symbol).(quantity := PositionOf(old(positions), symbol).quantity
                                                        + FillDelta(side, fillQuantity))]
      ensures positionsTable == old(positionsTable) && orders == old(orders)
      ensures currentTable == old(currentTable) && allTable == old(allTable)
      ensures currentPrices == old(currentPrices) && showCancelledAndZero == old(showCancelledAndZero)
      ensures Valid()
    {
      var pos := PositionOf(positions, symbol);
      if side == "BOT" {
        pos := pos.(quantity := pos.quantity + fillQuantity as real);
      } else if side == "SLD" {
        pos := pos.(quantity := pos.quantity - fillQuantity as real);
      }
      positions := positions[symbol := pos];
    }

    /**
     * `updatePosition`: the price and the position are always kept in
     * memory; the table shows the symbol once, unless its quantity is 0 or
     * less while zero positions are hidden.
     */
    method UpdatePosition(symbol: string, quantity: real, avgCost: real, marketPrice: real, unrealizedPnl: real)
      requires Valid()
      modifies this
      ensures currentPrices == old(currentPrices)[symbol := marketPrice]
      ensures positions == old(positions)[symbol := Position(symbol, quantity, avgCost, marketPrice)]
      ensures positionsTable == PositionRowsAfter(old(positionsTable), symbol, quantity, showCancelledAndZero)
      ensures symbol in positionsTable <==> quantity > 0.0 || showCancelledAndZero
      ensures orders == old(orders) && currentTable == old(currentTable) && allTable == old(allTable)
      ensures showCancelledAndZero == old(showCancelledAndZero)
      ensures Valid()
    {
      currentPrices := currentPrices[symbol := marketPrice];
      positions := positions[symbol := Position(symbol, quantity, avgCost, marketPrice)];
      var row := FindSymbolRow(positionsTable, symbol);
      PositionRowsKeepDistinct(positionsTable, symbol, quantity, showCancelledAndZero);
      if quantity <= 0.0 && !showCancelledAndZero {
        if row >= 0 {
          positionsTable := positionsTable[..row] + positionsTable[row + 1..];
        }
        return;
      }
      if row < 0 {
        positionsTable := positionsTable + [symbol];
      }
    }

    /** `clear`: the three tables are emptied; the orders and positions in memory stay. */
    method Clear()
      requires Valid()
      modifies this
      ensures currentTable == [] && allTable == [] && positionsTable == []
      ensures orders == old(orders) && positions == old(positions) && currentPrices == old(currentPrices)
      ensures showCancelledAndZero == old(showCancelledAndZero)
      ensures Valid()
    {
      currentTable, allTable, positionsTable := [], [], [];
    }
  }

  /**
   * The positions table keeps each symbol at most once; the updated symbol
   * is shown exactly when its quantity is positive or zero positions are
   * shown, and no other symbol comes or goes.
   */
  lemma PositionRowsKeepDistinct(t: seq<string>, symbol: string, quantity: real, showZero: bool)
    requires DistinctSymbols(t)
    ensures var u := PositionRowsAfter(t, symbol, quantity, showZero);
      DistinctSymbols(u) && (symbol in u <==> quantity > 0.0 || showZero)
      && forall other :: other != symbol ==> (other in u <==> other in t)
  {
    var r := FirstSymbolRow(t, symbol);
    if quantity <= 0.0 && !showZero && r >= 0 {
      SymbolRowRemoved(t, r);
    }
  }

  /** Taking out a row of a table that shows each symbol once keeps it so, and drops exactly that symbol. */
  lemma SymbolRowRemoved(t: seq<string>, r: nat)
    requires DistinctSymbols(t) && r < |t|
    ensures var u := Seqs.RemoveAt(t, r);
      DistinctSymbols(u) && t[r] !in u && forall other :: other != t[r] ==> (other in u <==> other in t)
  {
    Seqs.RemoveAtIndex(t, r);
    forall other
      ensures other in Seqs.RemoveAt(t, r) <==> other in t && other != t[r]
    {
      Seqs.RemoveAtElements(t, r, other);
    }
  }

  /** A row refresh keeps every row's order id, so an order stays in the all table. */
  lemma RefreshKeepsIds(t: seq<OrderRow>, o: TradeOrder)
    ensures var u := RefreshRow(t, o);
      |u| == |t| && (forall k :: 0 <= k < |t| ==> u[k].orderId == t[k].orderId)
      && (FirstRow(t, o.orderId) >= 0 ==> u[FirstRow(t, o.orderId)].status == o.status)
  {
  }

  /** With one row per order id, removing an id's first row leaves no row of it and keeps the ids distinct. */
  lemma RemoveFirstClears(t: seq<OrderRow>, id: int)
    requires DistinctIds(t)
    ensures var u := RemoveFirst(t, id);
      DistinctIds(u) && (forall r :: r in u ==> r in t && r.orderId != id)
  {
    var r := FirstRow(t, id);
    if r >= 0 {
      OrderRowRemoved(t, r);
    }
  }

  /** Taking out a row of a table with one row per order id keeps it so, and leaves no row of that id. */
  lemma OrderRowRemoved(t: seq<OrderRow>, r: nat)
    requires DistinctIds(t) && r < |t|
    ensures var u := Seqs.RemoveAt(t, r);
      DistinctIds(u) && forall x :: x in u ==> x in t && x.orderId != t[r].orderId
  {
    Seqs.RemoveAtIndex(t, r);
    forall x | x in Seqs.RemoveAt(t, r)
      ensures x in t && x.orderId != t[r].orderId
    {
      Seqs.RemoveAtElements(t, r, x);
    }
  }

  /** A filled or cancelled order leaves the current table when that table held it once. */
  lemma FinishedLeavesCurrent(t: seq<OrderRow>, o: TradeOrder)
    requires DistinctIds(t) && (IsFilled(o) || IsCancelled(o))
    ensures forall r :: r in CurrentAfterUpdate(t, o) ==> r.orderId != o.orderId
  {
    RemoveFirstClears(t, o.orderId);
  }

  lemma {:induction false} KeepConcat(a: seq<OrderRow>, b: seq<OrderRow>, ids: set<int>)
    ensures Keep(a + b, ids) == Keep(a, ids) + Keep(b, ids)
    decreases |a|
  {
    if |a| == 0 {
      assert a + b == b;
    } else {
      assert (a + b)[0] == a[0] && (a + b)[1..] == a[1..] + b;
      KeepConcat(a[1..], b, ids);
    }
  }

  /** Removing a row of an id in `ids` leaves the rows outside `ids` as they were. */
  lemma KeepIgnoresRemoval(t: seq<OrderRow>, id: int, ids: set<int>)
    requires id in ids
    ensures Keep(RemoveFirst(t, id), ids) == Keep(t, ids)
  {
    var r := FirstRow(t, id);
    if r >= 0 {
      assert t == t[..r] + ([t[r]] + t[r + 1..]);
      KeepConcat(t[..r], [t[r]] + t[r + 1..], ids);
      KeepConcat([t[r]], t[r + 1..], ids);
      KeepConcat(t[..r], t[r + 1..], ids);
      assert [t[r]][1..] == [];
    }
  }

  /** Hiding touches no row of an order that was not hidden, and keeps their order. */
  lemma {:induction false} RemoveEachKeepsOthers(t: seq<OrderRow>, hidden: seq<int>, ids: set<int>)
    requires forall k :: 0 <= k < |hidden| ==> hidden[k] in ids
    ensures Keep(RemoveEach(t, hidden), ids) == Keep(t, ids)
    decreases |hidden|
  {
    if |hidden| > 0 {
      RemoveEachKeepsOthers(t, hidden[..|hidden| - 1], ids);
      KeepIgnoresRemoval(RemoveEach(t, hidden[..|hidden| - 1]), hidden[|hidden| - 1], ids);
    }
  }

  /** With one row per order id, hiding leaves no row of a hidden order. */
  lemma {:induction false} RemoveEachClears(t: seq<OrderRow>, hidden: seq<int>)
    requires DistinctIds(t)
    ensures var u := RemoveEach(t, hidden);
      DistinctIds(u) && forall r :: r in u ==> r in t && forall k :: 0 <= k < |hidden| ==> r.orderId != hidden[k]
    decreases |hidden|
  {
    if |hidden| > 0 {
      var front := hidden[..|hidden| - 1];
      RemoveEachClears(t, front);
      RemoveFirstClears(RemoveEach(t, front), hidden[|hidden| - 1]);
      assert forall k :: 0 <= k < |hidden| - 1 ==> hidden[k] == front[k];
    }
  }

  lemma {:induction false} KeepNothingRemoved(t: seq<OrderRow>, ids: set<int>)
    requires forall r :: r in t ==> r.orderId !in ids
    ensures Keep(t, ids) == t
    decreases |t|
  {
    if |t| > 0 {
      assert forall r :: r in t[1..] ==> r in t;
      KeepNothingRemoved(t[1..], ids);
    }
  }

  /**
   * With one row per order id, hiding the cancelled orders leaves exactly
   * the rows of the other orders, in their order, whatever order the ids
   * were taken in.
   */
  lemma HidingFiltersRows(t: seq<OrderRow>, hidden: seq<int>, ids: set<int>)
    requires DistinctIds(t)
    requires forall k :: 0 <= k < |hidden| ==> hidden[k] in ids
    requires forall id :: id in ids ==> id in hidden
    ensures RemoveEach(t, hidden) == Keep(t, ids)
  {
    RemoveEachKeepsOthers(t, hidden, ids);
    RemoveEachClears(t, hidden);
    KeepNothingRemoved(RemoveEach(t, hidden), ids);
  }

  /** An added order is found in a table that did not hold its id, at the new last row. */
  lemma AddedOrderFound(t: seq<OrderRow>, o: TradeOrder)
    requires forall r :: r in t ==> r.orderId != o.orderId
    ensures FirstRow(t + [RowOf(o)], o.orderId) == |t|
  {
    var u := t + [RowOf(o)];
    assert u[|t|] == RowOf(o);
    assert forall k :: 0 <= k < |t| ==> u[k] == t[k] && t[k] in t;
  }
}
