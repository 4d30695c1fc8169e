/**
 * The TWS callback wrapper: it forwards connection and error callbacks as
 * signals and gathers last, bid and ask price ticks per ticker id, reporting
 * the three together once all of them have arrived.
 */
module IbkrWrapper {

  datatype WrapperEvent =
    | Connected
    | Disconnected
    | ErrorOccurred(id: int, code: int, message: string)
    | TickPriceReceived(tickerId: int, field: int, price: real)
    | MarketDataReceived(tickerId: int, last: real, bid: real, ask: real)

  /** The cached prices of one ticker id and which of them have arrived. */
  datatype MarketData = MarketData(lastPrice: real, bidPrice: real, askPrice: real,
                                   hasLast: bool, hasBid: bool, hasAsk: bool)

  const LastField := 4
  const BidField := 1
  const AskField := 2

  const NoData := MarketData(0.0, 0.0, 0.0, false, false, false)

  /** `m_marketDataCache[tickerId]`: a ticker id seen for the first time starts with nothing. */
  function DataOf(cache: map<int, MarketData>, tickerId: int): MarketData
  {
    if tickerId in cache then cache[tickerId] else NoData
  }

  predicate Complete(d: MarketData)
  {
    d.hasLast && d.hasBid && d.hasAsk
  }

  /** One price tick: fields 4, 1 and 2 set last, bid and ask and their flags; other fields change nothing. */
  function Ticked(d: MarketData, field: int, price: real): (r: MarketData)
    ensures field == LastField ==> r == d.(lastPrice := price, hasLast := true)
    ensures field == BidField ==> r == d.(bidPrice := price, hasBid := true)
    ensures field == AskField ==> r == d.(askPrice := price, hasAsk := true)
    ensures field != LastField && field != BidField && field != AskField ==> r == d
    ensures Complete(d) ==> Complete(r)
  {
    if field == LastField then d.(lastPrice := price, hasLast := true)
    else if field == BidField then d.(bidPrice := price, hasBid := true)
    else if field == AskField then d.(askPrice := price, hasAsk := true)
    else d
  }

  class Wrapper {
    var cache: map<int, MarketData>

    constructor()
      ensures cache == map[]
    {
      cache := map[];
    }

    /** `connectAck`. */
    method ConnectAck() returns (events: seq<WrapperEvent>)
      ensures events == [Connected]
    {
      events := [Connected];
    }

    /** `connectionClosed`. */
    method ConnectionClosed() returns (events: seq<WrapperEvent>)
      ensures events == [Disconnected]
    {
      events := [Disconnected];
    }

    /** `error`: forwarded unchanged; the error time and the rejection JSON are dropped. */
    method Error(id: int, code: int, message: string) returns (events: seq<WrapperEvent>)
      ensures events == [ErrorOccurred(id, code, message)]
    {
      events := [ErrorOccurred(id, code, message)];
    }

    /**
     * `tickPrice`: the raw tick is always reported first; the ticker's cache
     * takes the tick, and once it holds all three prices they are reported
     * together.
     */
    method TickPrice(tickerId: int, field: int, price: real) returns (events: seq<WrapperEvent>)
      modifies this
      ensures tickerId in cache && cache[tickerId] == Ticked(DataOf(old(cache), tickerId), field, price)
      ensures forall id :: id != tickerId ==> DataOf(cache, id) == DataOf(old(cache), id)
      ensures cache.Keys == old(cache).Keys + {tickerId}
      ensures |events| >= 1 && events[0] == TickPriceReceived(tickerId, field, price)
      ensures |events| == 2 <==> Complete(cache[tickerId])
      ensures |events| == 2 ==>
        var d := cache[tickerId];
        events[1] == MarketDataReceived(tickerId, d.lastPrice, d.bidPrice, d.askPrice)
      ensures |events| <= 2
    {
      events := [TickPriceReceived(tickerId, field, price)];
      var d := DataOf(cache, tickerId);
      if field == LastField {
        d := d.(lastPrice := price, hasLast := true);
      } else if field == BidField {
        d := d.(bidPrice := price, hasBid := true);
      } else if field == AskField {
        d := d.(askPrice := price, hasAsk := true);
      }
      cache := cache[tickerId := d];
      if d.hasLast && d.hasBid && d.hasAsk {
        events := events + [MarketDataReceived(tickerId, d.lastPrice, d.bidPrice, d.askPrice)];
      }
    }
  }

  /**
   * A last, a bid and an ask tick, in any order, complete a ticker's cache
   * with those three prices.
   */
  lemma ThreeTicksComplete(d: MarketData, last: real, bid: real, ask: real)
    ensures var r := Ticked(Ticked(Ticked(d, LastField, last), BidField, bid), AskField, ask);
      Complete(r) && r.lastPrice == last && r.bidPrice == bid && r.askPrice == ask
    ensures var r := Ticked(Ticked(Ticked(d, AskField, ask), BidField, bid), LastField, last);
      Complete(r) && r.lastPrice == last && r.bidPrice == bid && r.askPrice == ask
  {
  }

  /** Until a ticker has had a last, a bid and an ask tick, its cache is not complete. */
  lemma {:induction false} IncompleteWithoutAsk(d: MarketData, fields: seq<int>, prices: seq<real>)
    requires !d.hasAsk && |fields| == |prices|
    requires forall k :: 0 <= k < |fields| ==> fields[k] != AskField
    ensures !Complete(TickedAll(d, fields, prices))
    decreases |fields|
  {
    if |fields| > 0 {
      IncompleteWithoutAsk(Ticked(d, fields[0], prices[0]), fields[1..], prices[1..]);
    }
  }

  /** A ticker's cache after a run of ticks. */
  function TickedAll(d: MarketData, fields: seq<int>, prices: seq<real>): MarketData
    requires |fields| == |prices|
    decreases |fields|
  {
    if |fields| == 0 then d else TickedAll(Ticked(d, fields[0], prices[0]), fields[1..], prices[1..])
  }
}
