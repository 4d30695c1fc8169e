/**
 * The order panel: the order-type combo (LMT or MKT), the buy and sell
 * price fields, and the "Auto" button. A price field follows the ticks until
 * the user focuses or edits it; the button, enabled exactly while a field is
 * user-edited, hands both fields back to the ticks. The signals the panel
 * emits are returned as `PanelEvent` values; the saved order-type setting is
 * a constructor parameter.
 */
module OrderPanel {

  /** A price field: cleared, or showing a price. */
  datatype PriceField = Empty | Shown(price: real)

  datatype PanelEvent =
    | BuyPriceChanged(price: real)
    | SellPriceChanged(price: real)
    | OrderTypeChanged(orderType: string)

  /** The combo's items, in order. */
  const Limit := "LMT"
  const Market := "MKT"

  /** `buyPrice()`/`sellPrice()`: the field's number, 0 when cleared. */
  function PriceOf(f: PriceField): (p: real)
    ensures f.Shown? ==> p == f.price
    ensures f == Empty ==> p == 0.0
  {
    match f
    case Empty => 0.0
    case Shown(price) => price
  }

  class Panel {
    var orderType: string
    var marketEnabled: bool
    var panelEnabled: bool
    var buyField: PriceField
    var sellField: PriceField
    var priceFieldsEnabled: bool
    var buyHasFocus: bool
    var sellHasFocus: bool
    var buyUserEdited: bool
    var sellUserEdited: bool
    var resetEnabled: bool

    /** The combo holds one of its two items, and "Auto" is enabled exactly while a field is user-edited. */
    predicate Valid()
      reads this
    {
      (orderType == Limit || orderType == Market) && resetEnabled == (buyUserEdited || sellUserEdited)
    }

    /** The saved order type is selected when it is one of the items; otherwise the first item, LMT, stays. */
    constructor(savedOrderType: string)
      ensures orderType == (if savedOrderType == Market then Market else Limit)
      ensures !buyUserEdited && !sellUserEdited && !resetEnabled && !buyHasFocus && !sellHasFocus
      ensures buyField == Empty && sellField == Empty
      ensures priceFieldsEnabled == (orderType == Limit) && marketEnabled && panelEnabled
      ensures Valid()
    {
      orderType := if savedOrderType == Market then Market else Limit;
      marketEnabled, panelEnabled := true, true;
      buyField, sellField := Empty, Empty;
      priceFieldsEnabled := savedOrderType != Market;
      buyHasFocus, sellHasFocus := false, false;
      buyUserEdited, sellUserEdited := false, false;
      resetEnabled := false;
    }

    /** `updateResetButtonState`. */
    method UpdateResetButtonState()
      modifies this
      ensures resetEnabled == (buyUserEdited || sellUserEdited)
      ensures orderType == old(orderType) && buyField == old(buyField) && sellField == old(sellField)
      ensures buyUserEdited == old(buyUserEdited) && sellUserEdited == old(sellUserEdited)
      ensures buyHasFocus == old(buyHasFocus) && sellHasFocus == old(sellHasFocus)
      ensures priceFieldsEnabled == old(priceFieldsEnabled) && marketEnabled == old(marketEnabled)
      ensures panelEnabled == old(panelEnabled)
    {
      resetEnabled := buyUserEdited || sellUserEdited;
    }

    /** `setBuyPrice`: a tick's price is shown unless the field has focus or was edited by the user. */
    method SetBuyPrice(price: real)
      modifies this
      ensures buyField == (if old(buyHasFocus) || old(buyUserEdited) then old(buyField) else Shown(price))
      ensures sellField == old(sellField) && orderType == old(orderType)
      ensures buyUserEdited == old(buyUserEdited) && sellUserEdited == old(sellUserEdited)
      ensures buyHasFocus == old(buyHasFocus) && sellHasFocus == old(sellHasFocus)
      ensures resetEnabled == old(resetEnabled) && priceFieldsEnabled == old(priceFieldsEnabled)
      ensures marketEnabled == old(marketEnabled) && panelEnabled == old(panelEnabled)
    {
      if buyHasFocus || buyUserEdited {
        return;
      }
      buyField := Shown(price);
    }

    /** `setSellPrice`: the same for the sell field. */
    method SetSellPrice(price: real)
      modifies this
      ensures sellField == (if old(sellHasFocus) || old(sellUserEdited) then old(sellField) else Shown(price))
      ensures buyField == old(buyField) && orderType == old(orderType)
      ensures buyUserEdited == old(buyUserEdited) && sellUserEdited == old(sellUserEdited)
      ensures buyHasFocus == old(buyHasFocus) && sellHasFocus == old(sellHasFocus)
      ensures resetEnabled == old(resetEnabled) && priceFieldsEnabled == old(priceFieldsEnabled)
      ensures marketEnabled == old(marketEnabled) && panelEnabled == old(panelEnabled)
    {
      if sellHasFocus || sellUserEdited {
        return;
      }
      sellField := Shown(price);
    }

    /** `updatePriceFieldsState`: the fields are enabled only for LMT; MKT clears them. */
    method UpdatePriceFieldsState()
      modifies this
      ensures priceFieldsEnabled == (orderType == Limit)
      ensures orderType != Limit ==> buyField == Empty && sellField == Empty
      ensures orderType == Limit ==> buyField == old(buyField) && sellField == old(sellField)
      ensures orderType == old(orderType) && resetEnabled == old(resetEnabled)
      ensures buyUserEdited == old(buyUserEdited) && sellUserEdited == old(sellUserEdited)
      ensures buyHasFocus == old(buyHasFocus) && sellHasFocus == old(sellHasFocus)
      ensures marketEnabled == old(marketEnabled) && panelEnabled == old(panelEnabled)
    {
      var isLimitOrder := orderType == Limit;
      priceFieldsEnabled := isLimitOrder;
      if !isLimitOrder {
        buyField, sellField := Empty, Empty;
      }
    }

    /**
     * `resetPriceFields` (the "Auto" button): both flags cleared, both fields
     * cleared and unfocused, and 0 sent as both target prices.
     */
    method ResetPriceFields() returns (events: seq<PanelEvent>)
      modifies this
      ensures !buyUserEdited && !sellUserEdited && !resetEnabled
      ensures buyField == Empty && sellField == Empty && !buyHasFocus && !sellHasFocus
      ensures events == [BuyPriceChanged(0.0), SellPriceChanged(0.0)]
      ensures orderType == old(orderType) && priceFieldsEnabled == old(priceFieldsEnabled)
      ensures marketEnabled == old(marketEnabled) && panelEnabled == old(panelEnabled)
      ensures old(Valid()) ==> Valid()
    {
      buyUserEdited, sellUserEdited := false, false;
      buyField, sellField := Empty, Empty;
      buyHasFocus, sellHasFocus := false, false;
      events := [BuyPriceChanged(0.0), SellPriceChanged(0.0)];
      UpdateResetButtonState();
    }

    /**
     * `onOrderTypeChanged`, run when the combo's selection changes: the
     * fields follow the new type, both edited flags are cleared, and the new
     * type is announced.
     */
    method OnOrderTypeChanged() returns (events: seq<PanelEvent>)
      modifies this
      ensures priceFieldsEnabled == (orderType == Limit)
      ensures orderType != Limit ==> buyField == Empty && sellField == Empty
      ensures orderType == Limit ==> buyField == old(buyField) && sellField == old(sellField)
      ensures !buyUserEdited && !sellUserEdited && !resetEnabled
      ensures events == [OrderTypeChanged(orderType)]
      ensures orderType == old(orderType) && buyHasFocus == old(buyHasFocus) && sellHasFocus == old(sellHasFocus)
      ensures marketEnabled == old(marketEnabled) && panelEnabled == old(panelEnabled)
      ensures old(Valid()) ==> Valid()
    {
      UpdatePriceFieldsState();
      buyUserEdited, sellUserEdited := false, false;
      UpdateResetButtonState();
      events := [OrderTypeChanged(orderType)];
    }

    /**
     * `setOrderType`: selecting an item other than the current one runs the
     * change handler; text that is not an item, or the current item, changes
     * nothing.
     */
    method SetOrderType(newType: string) returns (events: seq<PanelEvent>)
      requires Valid()
      modifies this
      ensures (newType != Limit && newType != Market) || newType == old(orderType) ==>
        events == [] && orderType == old(orderType) && buyField == old(buyField) && sellField == old(sellField)
        && buyUserEdited == old(buyUserEdited) && sellUserEdited == old(sellUserEdited)
        && priceFieldsEnabled == old(priceFieldsEnabled)
      ensures (newType == Limit || newType == Market) && newType != old(orderType) ==>
        orderType == newType && events == [OrderTypeChanged(newType)]
        && !buyUserEdited && !sellUserEdited && priceFieldsEnabled == (newType == Limit)
        && (newType == Market ==> buyField == Empty && sellField == Empty)
        && (newType == Limit ==> buyField == old(buyField) && sellField == old(sellField))
      ensures buyHasFocus == old(buyHasFocus) && sellHasFocus == old(sellHasFocus)
      ensures marketEnabled == old(marketEnabled) && panelEnabled == old(panelEnabled)
      ensures Valid()
    {
      events := [];
      if (newType != Limit && newType != Market) || newType == orderType {
        return;
      }
      orderType := newType;
      events := OnOrderTypeChanged();
    }

    /** `setMarketOrdersEnabled`: disabling MKT while it is selected switches the combo to LMT. */
    method SetMarketOrdersEnabled(enabled: bool) returns (events: seq<PanelEvent>)
      requires Valid()
      modifies this
      ensures marketEnabled == enabled
      ensures !enabled && old(orderType) == Market ==>
        orderType == Limit && events == [OrderTypeChanged(Limit)] && priceFieldsEnabled
        && !buyUserEdited && !sellUserEdited
      ensures enabled || old(orderType) != Market ==>
        orderType == old(orderType) && events == [] && buyUserEdited == old(buyUserEdited)
        && sellUserEdited == old(sellUserEdited) && priceFieldsEnabled == old(priceFieldsEnabled)
      ensures !enabled ==> orderType == Limit
      ensures buyField == old(buyField) && sellField == old(sellField)
      ensures panelEnabled == old(panelEnabled)
      ensures Valid()
    {
      marketEnabled := enabled;
      events := [];
      if !enabled && orderType == Market {
        events := SetOrderType(Limit);
      }
    }

    /** `onBuyPriceEdited`: the user's text marks the field edited and is sent as the buy target. */
    method OnBuyPriceEdited(typed: PriceField) returns (events: seq<PanelEvent>)
      requires Valid()
      modifies this
      ensures buyField == typed && buyUserEdited && resetEnabled
      ensures events == [BuyPriceChanged(PriceOf(typed))]
      ensures sellField == old(sellField) && sellUserEdited == old(sellUserEdited) && orderType == old(orderType)
      ensures buyHasFocus == old(buyHasFocus) && sellHasFocus == old(sellHasFocus)
      ensures priceFieldsEnabled == old(priceFieldsEnabled) && marketEnabled == old(marketEnabled)
      ensures panelEnabled == old(panelEnabled)
      ensures Valid()
    {
      buyField := typed;
      buyUserEdited := true;
      UpdateResetButtonState();
      events := [BuyPriceChanged(PriceOf(buyField))];
    }

    /** `onSellPriceEdited`: the same for the sell field. */
    method OnSellPriceEdited(typed: PriceField) returns (events: seq<PanelEvent>)
      requires Valid()
      modifies this
      ensures sellField == typed && sellUserEdited && resetEnabled
      ensures events == [SellPriceChanged(PriceOf(typed))]
      ensures buyField == old(buyField) && buyUserEdited == old(buyUserEdited) && orderType == old(orderType)
      ensures buyHasFocus == old(buyHasFocus) && sellHasFocus == old(sellHasFocus)
      ensures priceFieldsEnabled == old(priceFieldsEnabled) && marketEnabled == old(marketEnabled)
      ensures panelEnabled == old(panelEnabled)
      ensures Valid()
    {
      sellField := typed;
      sellUserEdited := true;
      UpdateResetButtonState();
      events := [SellPriceChanged(PriceOf(sellField))];
    }

    /** `eventFilter` on focus-in: the focused field stops following the ticks. */
    method FocusIn(onBuyField: bool)
      requires Valid()
      modifies this
      ensures onBuyField ==> buyHasFocus && buyUserEdited && sellUserEdited == old(sellUserEdited)
      ensures !onBuyField ==> sellHasFocus && sellUserEdited && buyUserEdited == old(buyUserEdited)
      ensures resetEnabled
      ensures buyField == old(buyField) && sellField == old(sellField) && orderType == old(orderType)
      ensures priceFieldsEnabled == old(priceFieldsEnabled) && marketEnabled == old(marketEnabled)
      ensures panelEnabled == old(panelEnabled)
      ensures Valid()
    {
      if onBuyField {
        buyHasFocus := true;
        buyUserEdited := true;
      } else {
        sellHasFocus := true;
        sellUserEdited := true;
      }
      UpdateResetButtonState();
    }

    /**
     * A field losing focus: only the focus goes; the filter reacts to focus-in
     * alone, so a field the user focused keeps ignoring the ticks until "Auto".
     */
    method FocusOut(onBuyField: bool)
      requires Valid()
      modifies this
      ensures onBuyField ==> !buyHasFocus && sellHasFocus == old(sellHasFocus)
      ensures !onBuyField ==> !sellHasFocus && buyHasFocus == old(buyHasFocus)
      ensures buyUserEdited == old(buyUserEdited) && sellUserEdited == old(sellUserEdited)
      ensures resetEnabled == old(resetEnabled)
      ensures buyField == old(buyField) && sellField == old(sellField) && orderType == old(orderType)
      ensures priceFieldsEnabled == old(priceFieldsEnabled) && marketEnabled == old(marketEnabled)
      ensures panelEnabled == old(panelEnabled)
      ensures Valid()
    {
      if onBuyField {
        buyHasFocus := false;
      } else {
        sellHasFocus := false;
      }
    }

    /**
     * `setOrderPanelEnabled`: enabling restores the fields for LMT and the
     * button's state; disabling turns everything off and resets the prices.
     */
    method SetOrderPanelEnabled(enabled: bool) returns (events: seq<PanelEvent>)
      requires Valid()
      modifies this
      ensures panelEnabled == enabled && orderType == old(orderType)
      ensures enabled ==>
        priceFieldsEnabled == (orderType == Limit) && events == [] && buyField == old(buyField)
        && sellField == old(sellField) && buyUserEdited == old(buyUserEdited) && sellUserEdited == old(sellUserEdited)
        && resetEnabled == (buyUserEdited || sellUserEdited)
      ensures !enabled ==>
        !priceFieldsEnabled && !resetEnabled && buyField == Empty && sellField == Empty
        && !buyUserEdited && !sellUserEdited && events == [BuyPriceChanged(0.0), SellPriceChanged(0.0)]
      ensures marketEnabled == old(marketEnabled)
      ensures enabled ==> buyHasFocus == old(buyHasFocus) && sellHasFocus == old(sellHasFocus)
      ensures !enabled ==> !buyHasFocus && !sellHasFocus
      ensures Valid()
    {
      panelEnabled := enabled;
      if enabled {
        priceFieldsEnabled := orderType == Limit;
        UpdateResetButtonState();
        events := [];
      } else {
        priceFieldsEnabled := false;
        resetEnabled := false;
        events := ResetPriceFields();
      }
    }
  }
}
