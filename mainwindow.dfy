/**
 * Decisions of the main window: which TWS error codes raise a toast, how a
 * toast type is read, which trading buttons are enabled, how completed
 * orders from TWS (order id 0) are numbered, and what deleting the current
 * symbol switches to. The client, the order history and the trading manager
 * it asks are parameters.
 */
module MainWindow {
  import opened Wrappers
  import opened Text
  import opened Order

  datatype ToastType = InfoToast | WarningToast | ErrorToast

  /** `showToast`'s type string: "warning" and "error" are recognised, anything else is info. */
  function ToastTypeOf(kind: string): (t: ToastType)
    ensures t == WarningToast <==> kind == "warning"
    ensures t == ErrorToast <==> kind == "error"
    ensures t == InfoToast <==> kind != "warning" && kind != "error"
  {
    if kind == "warning" then WarningToast else if kind == "error" then ErrorToast else InfoToast
  }

  /** The error codes `onError` keeps quiet about: connection, farm-status and market-data codes. */
  const SilencedCodes: set<int> :=
    {1100, 1300, 2104, 2105, 2106, 2107, 2108, 2109, 2110, 2158, 10089, 10168, 354, 10197, 10167, 162, 300, 322}

  /** `onError`'s chain of early returns. */
  predicate Toasted(code: int)
  {
    if code == 1100 || code == 1300 then false
    else if 2104 <= code <= 2110 then false
    else if code == 2158 then false
    else if code == 10089 || code == 10168 || code == 354 || code == 10197 || code == 10167 || code == 162 then false
    else if code == 300 || code == 322 then false
    else true
  }

  /** The toast `onError` shows, if any: "Error <code>: <message>" as an error. */
  function ErrorToastFor(code: int, message: string): (t: Option<(string, ToastType)>)
    ensures t.Some? <==> code !in SilencedCodes
    ensures t.Some? ==> t.value == ("Error " + IntToString(code) + ": " + message, ErrorToast)
  {
    SilencedExactly(code);
    if Toasted(code) then Some(("Error " + IntToString(code) + ": " + message, ToastTypeOf("error"))) else None
  }

  /** The chain of early returns silences exactly the listed codes. */
  lemma SilencedExactly(code: int)
    ensures Toasted(code) <==> code !in SilencedCodes
  {
    if 2104 <= code <= 2110 {
      assert code in {2104, 2105, 2106, 2107, 2108, 2109, 2110};
    }
  }

  const AddPercents: seq<int> := [5, 10, 15, 20, 25, 30, 35, 40, 45, 50]
  const ClosePercents: seq<int> := [25, 50, 75, 100]

  /** Enabled flags of the trading buttons (and their menu actions). */
  datatype Buttons = Buttons(open: bool, add: seq<bool>, close: seq<bool>, cancel: bool)

  /**
   * `updateTradingButtonsState`: without a connection or a symbol everything
   * but Cancel is off; otherwise Open needs no position, a price and a
   * balance, Add p needs a position, a price, a balance and room in the
   * budget, Close p a position and at least one share to sell.
   */
  function ButtonsFor(connected: bool, symbol: string, price: real, balance: real, position: real,
                      canAdd: int -> bool, canClose: int -> bool): (b: Buttons)
    ensures |b.add| == |AddPercents| && |b.close| == |ClosePercents| && b.cancel
    ensures !connected || symbol == "" ==>
      !b.open && (forall i :: 0 <= i < |b.add| ==> !b.add[i]) && (forall i :: 0 <= i < |b.close| ==> !b.close[i])
    ensures b.open <==> connected && symbol != "" && position == 0.0 && price > 0.0 && balance > 0.0
    ensures forall i :: 0 <= i < |b.add| ==>
      (b.add[i] <==> connected && symbol != "" && position > 0.0 && price > 0.0 && balance > 0.0 && canAdd(AddPercents[i]))
    ensures forall i :: 0 <= i < |b.close| ==>
      (b.close[i] <==> connected && symbol != "" && position > 0.0 && canClose(ClosePercents[i]))
  {
    if !connected || symbol == "" then
      Buttons(false, seq(|AddPercents|, _ => false), seq(|ClosePercents|, _ => false), true)
    else
      var hasPrice := price > 0.0;
      var hasBalance := balance > 0.0;
      var hasPosition := position > 0.0;
      Buttons(position == 0.0 && hasPrice && hasBalance,
              seq(|AddPercents|, i requires 0 <= i < |AddPercents| =>
                hasPosition && hasPrice && hasBalance && canAdd(AddPercents[i])),
              seq(|ClosePercents|, i requires 0 <= i < |ClosePercents| => hasPosition && canClose(ClosePercents[i])),
              true)
  }

  /** Opening and adding or closing are never offered together: one needs no position, the others one. */
  lemma OpenExcludesAddAndClose(connected: bool, symbol: string, price: real, balance: real, position: real,
                                canAdd: int -> bool, canClose: int -> bool)
    ensures var b := ButtonsFor(connected, symbol, price, balance, position, canAdd, canClose);
      b.open ==> (forall i :: 0 <= i < |b.add| ==> !b.add[i]) && (forall i :: 0 <= i < |b.close| ==> !b.close[i])
  {
  }

  /** A completed order from TWS: numbered by the window, filled when it has a quantity, else cancelled. */
  function HistoricalOrder(orderId: int, sortOrder: int, symbol: string, action: string, quantity: int,
                           price: real, permId: int): (o: TradeOrder)
    ensures o.orderId == orderId && o.sortOrder == sortOrder && o.symbol == symbol && o.permId == permId
    ensures IsBuy(o) <==> action == "BUY"
    ensures IsFilled(o) <==> quantity > 0
    ensures IsCancelled(o) <==> quantity <= 0
    ensures o.price == price && o.fillPrice == price && o.quantity == quantity && o.commission == 0.0
  {
    TradeOrder(orderId, symbol, if action == "BUY" then Buy else Sell, quantity, price,
               if quantity > 0 then Filled else Cancelled, price, 0.0, permId, sortOrder)
  }

  /** What deleting a symbol does to the current one. */
  datatype DeleteOutcome = KeepCurrent | SwitchTo(symbol: string) | ResetToNone

  /** `onSymbolDelete`: deleting the current symbol switches to the top of the list, or clears it. */
  function AfterDelete(currentSymbol: string, deleted: string, topSymbol: string): (r: DeleteOutcome)
    ensures currentSymbol != deleted <==> r == KeepCurrent
    ensures currentSymbol == deleted && topSymbol != "" <==> r == SwitchTo(topSymbol)
    ensures r == ResetToNone <==> currentSymbol == deleted && topSymbol == ""
  {
    if currentSymbol != deleted then KeepCurrent
    else if topSymbol != "" then SwitchTo(topSymbol)
    else ResetToNone
  }

  class Window {
    var currentSymbol: string
    var nextHistoricalOrderId: int
    var historicalOrderCounter: int

    /** The two counters move together: the n-th completed order gets id -n and sort order n. */
    predicate Valid()
      reads this
    {
      historicalOrderCounter >= 1 && nextHistoricalOrderId == -historicalOrderCounter
    }

    constructor()
      ensures Valid() && currentSymbol == "" && nextHistoricalOrderId == -1 && historicalOrderCounter == 1
    {
      currentSymbol := "";
      nextHistoricalOrderId := -1;
      historicalOrderCounter := 1;
    }

    /**
     * The `orderConfirmed` handler: only completed orders (id 0) are taken,
     * under the next negative id and the next sort order.
     */
    method OnOrderConfirmed(orderId: int, symbol: string, action: string, quantity: int, price: real, permId: int)
      returns (added: Option<TradeOrder>)
      requires Valid()
      modifies this
      ensures orderId != 0 ==>
        added == None && nextHistoricalOrderId == old(nextHistoricalOrderId)
        && historicalOrderCounter == old(historicalOrderCounter)
      ensures orderId == 0 ==>
        added == Some(HistoricalOrder(old(nextHistoricalOrderId), old(historicalOrderCounter), symbol, action,
                                      quantity, price, permId))
        && nextHistoricalOrderId == old(nextHistoricalOrderId) - 1
        && historicalOrderCounter == old(historicalOrderCounter) + 1
      ensures added.Some? ==> added.value.orderId < 0 && added.value.sortOrder >= 1
      ensures currentSymbol == old(currentSymbol)
      ensures Valid()
    {
      added := None;
      if orderId == 0 {
        var id := nextHistoricalOrderId;
        nextHistoricalOrderId := nextHistoricalOrderId - 1;
        var sortOrder := historicalOrderCounter;
        historicalOrderCounter := historicalOrderCounter + 1;
        added := Some(HistoricalOrder(id, sortOrder, symbol, action, quantity, price, permId));
      }
    }

    /** `onSymbolDelete`: `topSymbol` is the list's top symbol after the removal ("" for none). */
    method OnSymbolDelete(deleted: string, topSymbol: string) returns (outcome: DeleteOutcome)
      modifies this
      ensures outcome == AfterDelete(old(currentSymbol), deleted, topSymbol)
      ensures currentSymbol == (if outcome == ResetToNone then "" else old(currentSymbol))
      ensures nextHistoricalOrderId == old(nextHistoricalOrderId)
      ensures historicalOrderCounter == old(historicalOrderCounter)
    {
      outcome := KeepCurrent;
      if currentSymbol == deleted {
        if topSymbol != "" {
          outcome := SwitchTo(topSymbol);
        } else {
          currentSymbol := "";
          outcome := ResetToNone;
        }
      }
    }
  }
}
