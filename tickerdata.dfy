/**
 * The ticker data manager of the desktop application: per-ticker bar caches
 * keyed by `symbol@exchange`, the request-id maps that route historical and
 * real-time bars to their ticker and timeframe, the aggregation of 5-second
 * bars into the current timeframe, and the contract-id bookkeeping fed by
 * contract-details answers.
 *
 * Qt's `QMap::operator[]` inserts a default value for a missing key; the
 * model does the same wherever the code reads through it. Of the calls into
 * the TWS client, only the historical-data request is returned, as a
 * `LoadOutcome`; subscriptions and cancellations are modelled by the
 * request-id maps they update, not as calls. Whether the client is connected
 * is a parameter.
 */
module TickerData {
  import opened Wrappers
  import opened Text
  import opened Seqs
  import opened TickerKeys

  datatype Bar = Bar(timestamp: int, open: real, high: real, low: real, close: real, volume: int)

  /** The cached data of one ticker. */
  datatype TickerRecord = TickerRecord(
    symbol: string,
    exchange: string,
    conId: int,
    barsByTimeframe: map<Timeframe, seq<Bar>>,
    loaded: set<Timeframe>,
    lastBarTimestamp: map<Timeframe, int>)

  /** A default-constructed record, as `operator[]` inserts it. */
  const EmptyRecord := TickerRecord("", "", 0, map[], {}, map[])

  /**
   * The timeframe a default-constructed `Timeframe` holds: its first
   * enumerator. The header that declares the enum is not part of this model;
   * `Sec5` is taken as first because every per-timeframe table of the source
   * lists the timeframes from 5 seconds upwards.
   */
  const DefaultTimeframe := Sec5

  function RecordOf(data: map<string, TickerRecord>, key: string): TickerRecord
  {
    if key in data then data[key] else EmptyRecord
  }

  function BarsOf(record: TickerRecord, tf: Timeframe): seq<Bar>
  {
    if tf in record.barsByTimeframe then record.barsByTimeframe[tf] else []
  }

  predicate Increasing(bars: seq<Bar>)
  {
    forall i, j :: 0 <= i < j < |bars| ==> bars[i].timestamp < bars[j].timestamp
  }

  /**
   * The historical-bar rule: a bar is appended only to an empty list or after
   * a strictly older last bar, so the list stays strictly increasing.
   */
  function AppendIfNewer(bars: seq<Bar>, bar: Bar): (r: seq<Bar>)
    ensures r == bars + [bar] <==> |bars| == 0 || bars[|bars| - 1].timestamp < bar.timestamp
    ensures r != bars + [bar] ==> r == bars
    ensures Increasing(bars) ==> Increasing(r)
  {
    if |bars| == 0 || bars[|bars| - 1].timestamp < bar.timestamp then bars + [bar] else bars
  }

  /** The record with one more historical bar for a timeframe (a no-op for an old bar). */
  function WithHistoricalBar(record: TickerRecord, tf: Timeframe, bar: Bar): TickerRecord
  {
    var bars := BarsOf(record, tf);
    record.(barsByTimeframe := record.barsByTimeframe[tf := AppendIfNewer(bars, bar)],
            lastBarTimestamp := if |bars| == 0 || bars[|bars| - 1].timestamp < bar.timestamp
                                then record.lastBarTimestamp[tf := bar.timestamp]
                                else record.lastBarTimestamp)
  }

  /** The record with a completed bar appended for a timeframe. */
  function WithBar(record: TickerRecord, tf: Timeframe, bar: Bar): (r: TickerRecord)
    ensures BarsOf(r, tf) == BarsOf(record, tf) + [bar]
    ensures forall other :: other != tf ==> BarsOf(r, other) == BarsOf(record, other)
  {
    record.(barsByTimeframe := record.barsByTimeframe[tf := BarsOf(record, tf) + [bar]],
            lastBarTimestamp := record.lastBarTimestamp[tf := bar.timestamp])
  }

  /** The record with the completed aggregated bars appended, in order. */
  function WithBars(record: TickerRecord, tf: Timeframe, done: seq<Bar>): (r: TickerRecord)
    ensures BarsOf(r, tf) == BarsOf(record, tf) + done
    ensures forall other :: other != tf ==> BarsOf(r, other) == BarsOf(record, other)
    decreases |done|
  {
    if |done| == 0 then record
    else
      var r := WithBar(WithBars(record, tf, done[..|done| - 1]), tf, done[|done| - 1]);
      assert done == done[..|done| - 1] + [done[|done| - 1]];
      r
  }

  // ---------------------------------------------------------------- aggregation

  /** The aggregation in progress: whether one is running, and its bar. */
  datatype Aggregation = Aggregation(active: bool, bar: Bar)

  function Max(a: real, b: real): real { if a < b then b else a }

  function Min(a: real, b: real): real { if a < b then a else b }

  /** One more 5-second bar of the same bucket. */
  function Merge(agg: Bar, bar: Bar): (r: Bar)
    ensures r.timestamp == agg.timestamp && r.open == agg.open && r.close == bar.close
    ensures r.high >= agg.high && r.high >= bar.high && (r.high == agg.high || r.high == bar.high)
    ensures r.low <= agg.low && r.low <= bar.low && (r.low == agg.low || r.low == bar.low)
    ensures r.volume == agg.volume + bar.volume
  {
    agg.(high := Max(agg.high, bar.high), low := Min(agg.low, bar.low),
         close := bar.close, volume := agg.volume + bar.volume)
  }

  /**
   * One 5-second bar folded into the aggregation, given the start of the
   * bucket it belongs to and whether it is the last 5-second slot of that
   * bucket: the result is the new aggregation and the completed bars, in order.
   */
  function AggregateFrom(agg: Aggregation, bar: Bar, start: int, closes: bool): (r: (Aggregation, seq<Bar>))
    ensures r.0.bar.timestamp == start
    ensures |r.1| <= 2
    ensures r.0.active <==> !closes
    ensures agg.active && agg.bar.timestamp != start ==> |r.1| >= 1 && r.1[0] == agg.bar
    ensures !agg.active || agg.bar.timestamp == start ==> |r.1| <= 1
    ensures !r.0.active ==> r.1 != [] && r.1[|r.1| - 1] == r.0.bar
    ensures r.0.active ==> |r.1| <= 1
    ensures agg.active && agg.bar.timestamp == start ==> r.0.bar == Merge(agg.bar, bar)
    ensures !agg.active || agg.bar.timestamp != start ==> r.0.bar == bar.(timestamp := start)
  {
    var (current, done) :=
      if !agg.active || agg.bar.timestamp != start then
        (bar.(timestamp := start), if agg.active then [agg.bar] else [])
      else (Merge(agg.bar, bar), []);
    if closes then (Aggregation(false, current), done + [current])
    else (Aggregation(true, current), done)
  }

  /**
   * `AggregateFrom` with the bucket of a bar length: the bucket starts at the
   * bar's time rounded down to a multiple of the length, and it closes on the
   * bar whose end time is a multiple of the length.
   */
  function AggregateStep(agg: Aggregation, bar: Bar, barSeconds: nat): (r: (Aggregation, seq<Bar>))
    requires barSeconds > 0
    ensures r.0.bar.timestamp % barSeconds == 0
    ensures bar.timestamp >= 0 ==> r.0.bar.timestamp <= bar.timestamp < r.0.bar.timestamp + barSeconds
    ensures r.0.active <==> CppRem(bar.timestamp + 5, barSeconds) != 0
  {
    AggregateFrom(agg, bar, BucketStart(bar.timestamp, barSeconds), CppRem(bar.timestamp + 5, barSeconds) == 0)
  }

  // ---------------------------------------------------------------- requests

  datatype ContractSearchInfo = ContractSearchInfo(totalCount: nat, foundContracts: seq<string>)

  /** A historical-data request to TWS: request id, bare symbol, duration text and bar size. */
  datatype HistoricalRequest = HistoricalRequest(reqId: int, symbol: string, duration: string, barSize: string)

  function HistoricalRequestFor(reqId: int, symbol: string, tf: Timeframe): HistoricalRequest
  {
    HistoricalRequest(reqId, symbol, Decimal(HistoricalDuration(tf)) + " S", TimeframeToBarSize(tf))
  }

  datatype LoadOutcome =
    | NotTracked
    | AlreadyLoaded(loadedSymbol: string)
    | Requested(request: HistoricalRequest)

  /** The request ids of a map that lead to a ticker key. */
  function ReqIdsOf(m: map<int, string>, key: string): set<int>
  {
    set id | id in m && m[id] == key
  }

  /**
   * The collect half of `removeTicker`'s collect-then-remove loops: every
   * request id mapped to the key.
   */
  method CollectReqIds(m: map<int, string>, key: string) returns (ids: set<int>)
    ensures ids == ReqIdsOf(m, key)
  {
    ids := {};
    var remaining := m.Keys;
    while remaining != {}
      invariant remaining <= m.Keys
      invariant ids == ReqIdsOf(m, key) - remaining
      decreases remaining
    {
      EmptyOrElement(remaining);
      var id :| id in remaining;
      if m[id] == key {
        ids := ids + {id};
      }
      remaining := remaining - {id};
    }
  }

  /** The record of a newly activated ticker: its contract id by symbol, else by key, else 0. */
  function NewRecord(symbol: string, exchange: string, symbolToContractId: map<string, int>,
                     tickerKeyToContractId: map<string, int>): (r: TickerRecord)
    ensures r.symbol == symbol && r.exchange == exchange
    ensures symbol in symbolToContractId && symbolToContractId[symbol] != 0 ==> r.conId == symbolToContractId[symbol]
    ensures (symbol !in symbolToContractId || symbolToContractId[symbol] == 0) ==>
      r.conId == (var key := MakeTickerKey(symbol, exchange);
                  if key in tickerKeyToContractId then tickerKeyToContractId[key] else 0)
    ensures r.barsByTimeframe == map[] && r.loaded == {}
  {
    var bySymbol := if symbol in symbolToContractId then symbolToContractId[symbol] else 0;
    var key := MakeTickerKey(symbol, exchange);
    var conId := if bySymbol != 0 then bySymbol
                 else if key in tickerKeyToContractId then tickerKeyToContractId[key] else 0;
    TickerRecord(symbol, exchange, conId, map[], {}, map[])
  }

  /** The search record of a request id, a fresh one when there is none yet. */
  function SearchInfo(searches: map<int, ContractSearchInfo>, reqId: int): ContractSearchInfo
  {
    if reqId in searches then searches[reqId] else ContractSearchInfo(0, [])
  }

  /**
   * Whether a contract-details answer stores its contract id: with an expected
   * exchange for the symbol, only on an exact match; without one, only when no
   * id is known for the symbol yet.
   */
  predicate StoresContract(symbol: string, exchange: string, symbolToExchange: map<string, string>,
                           symbolToContractId: map<string, int>)
  {
    if symbol in symbolToExchange then symbolToExchange[symbol] == exchange
    else symbol !in symbolToContractId
  }

  /**
   * One more answer counted for a search; a stored contract is listed while
   * fewer than five are listed.
   */
  function CountContract(info: ContractSearchInfo, stored: bool, entry: string): (r: ContractSearchInfo)
    ensures r.totalCount == info.totalCount + 1
    ensures |r.foundContracts| <= 5 <== |info.foundContracts| <= 5
    ensures |r.foundContracts| <= r.totalCount <== |info.foundContracts| <= info.totalCount
    ensures r.foundContracts == info.foundContracts + [entry] <==> stored && |info.foundContracts| < 5
    ensures r.foundContracts != info.foundContracts + [entry] ==> r.foundContracts == info.foundContracts
  {
    ContractSearchInfo(info.totalCount + 1,
      if stored && |info.foundContracts| < 5 then info.foundContracts + [entry] else info.foundContracts)
  }

  // ---------------------------------------------------------------- manager state

  /** The request bookkeeping: request ids and what they route to. */
  datatype Requests = Requests(
    reqIdToSymbol: map<int, string>,
    reqIdToTimeframe: map<int, Timeframe>,
    realTimeBarsReqIdToSymbol: map<int, string>,
    nextReqId: int,
    tickByTickReqId: int,
    realTimeBarsReqId: int)

  /** What is on screen: the current key and timeframe and the aggregation running for them. */
  datatype Live = Live(
    currentSymbol: string,
    currentTimeframe: Timeframe,
    lastCompletedBarTime: int,
    isAggregating: bool,
    aggregationBar: Bar)

  /** What contract-details answers taught: expected exchanges, contract ids, search summaries. */
  datatype Contracts = Contracts(
    symbolToExchange: map<string, string>,
    tickerKeyToExchange: map<string, string>,
    symbolToContractId: map<string, int>,
    tickerKeyToContractId: map<string, int>,
    contractSearches: map<int, ContractSearchInfo>)

  /** Every field of the manager that its operations read or write, grouped. */
  datatype ManagerState = ManagerState(
    tickerData: map<string, TickerRecord>,
    requests: Requests,
    live: Live,
    contracts: Contracts)

  /** The state the constructor sets up: request ids from 2000, 10-second timeframe. */
  const InitialState := ManagerState(
    map[],
    Requests(map[], map[], map[], 2000, -1, -1),
    Live("", Sec10, 0, false, Bar(0, 0.0, 0.0, 0.0, 0.0, 0)),
    Contracts(map[], map[], map[], map[], map[]))

  /** Every id was handed out by a counter that started at 2000 and is now at `next`. */
  predicate IdsIssued(ids: set<int>, next: int)
  {
    forall id :: id in ids ==> 2000 <= id < next
  }

  /** Request ids come from the counter, so a fresh one is never in use. */
  predicate ValidRequests(q: Requests)
  {
    q.nextReqId >= 2000
    && IdsIssued(q.reqIdToSymbol.Keys, q.nextReqId)
    && IdsIssued(q.reqIdToTimeframe.Keys, q.nextReqId)
    && IdsIssued(q.realTimeBarsReqIdToSymbol.Keys, q.nextReqId)
    && q.tickByTickReqId < q.nextReqId && q.realTimeBarsReqId < q.nextReqId
  }

  /** A contract search lists at most five contracts and never more than it counted. */
  predicate SearchesBounded(searches: map<int, ContractSearchInfo>)
  {
    forall id :: id in searches ==>
      |searches[id].foundContracts| <= 5 && |searches[id].foundContracts| <= searches[id].totalCount
  }

  predicate ValidState(s: ManagerState)
  {
    ValidRequests(s.requests) && SearchesBounded(s.contracts.contractSearches)
  }

  /** `setContractId`: a positive contract id is stored by symbol and by ticker key. */
  function ContractIdSet(c: Contracts, symbol: string, exchange: string, conId: int): (r: Contracts)
    ensures conId > 0 ==> symbol in r.symbolToContractId && r.symbolToContractId[symbol] == conId
                          && MakeTickerKey(symbol, exchange) in r.tickerKeyToContractId
                          && r.tickerKeyToContractId[MakeTickerKey(symbol, exchange)] == conId
    ensures conId <= 0 ==> r == c
    ensures forall k :: k in c.symbolToContractId && k != symbol ==>
      k in r.symbolToContractId && r.symbolToContractId[k] == c.symbolToContractId[k]
    ensures r.symbolToExchange == c.symbolToExchange && r.contractSearches == c.contractSearches
  {
    if conId > 0 then
      c.(symbolToContractId := c.symbolToContractId[symbol := conId],
         tickerKeyToContractId := c.tickerKeyToContractId[MakeTickerKey(symbol, exchange) := conId])
    else c
  }

  /** `setExpectedExchange`: a non-empty exchange becomes the expected exchange of the symbol. */
  function ExpectedExchangeSet(c: Contracts, symbol: string, exchange: string): (r: Contracts)
    ensures exchange != "" ==> symbol in r.symbolToExchange && r.symbolToExchange[symbol] == exchange
    ensures exchange == "" ==> r == c
    ensures forall k :: k in c.symbolToExchange && k != symbol ==>
      k in r.symbolToExchange && r.symbolToExchange[k] == c.symbolToExchange[k]
    ensures r == c.(symbolToExchange := r.symbolToExchange)
  {
    if exchange != "" then c.(symbolToExchange := c.symbolToExchange[symbol := exchange]) else c
  }

  /** `getContractId`: the contract id stored for the key, 0 when there is none. */
  function ContractIdOf(c: Contracts, symbol: string, exchange: string): int
  {
    var key := MakeTickerKey(symbol, exchange);
    if key in c.tickerKeyToContractId then c.tickerKeyToContractId[key] else 0
  }

  /** `getExchange`: the exchange remembered for the key, the given one when there is none. */
  function ExchangeOf(c: Contracts, symbol: string, exchange: string): string
  {
    var key := MakeTickerKey(symbol, exchange);
    if key in c.tickerKeyToExchange then c.tickerKeyToExchange[key] else exchange
  }

  /** A positive id stored with `setContractId` is what `getContractId` answers; other ids are ignored. */
  lemma ContractIdStored(c: Contracts, symbol: string, exchange: string, conId: int)
    ensures conId > 0 ==> ContractIdOf(ContractIdSet(c, symbol, exchange, conId), symbol, exchange) == conId
    ensures conId <= 0 ==> ContractIdOf(ContractIdSet(c, symbol, exchange, conId), symbol, exchange) == ContractIdOf(c, symbol, exchange)
  {
  }

  /**
   * `unsubscribeFromCurrentTicker` on the requests: when connected, both
   * subscriptions are cancelled and the real-time request id stops routing
   * bars.
   */
  function Cancelled(q: Requests, connected: bool): (r: Requests)
    ensures connected ==> r.realTimeBarsReqId == -1 && r.tickByTickReqId == -1
    ensures ValidRequests(q) && connected ==> q.realTimeBarsReqId !in r.realTimeBarsReqIdToSymbol
    ensures !connected ==> r == q
    ensures r.realTimeBarsReqIdToSymbol.Keys <= q.realTimeBarsReqIdToSymbol.Keys
    ensures r.reqIdToSymbol == q.reqIdToSymbol && r.reqIdToTimeframe == q.reqIdToTimeframe
    ensures r.nextReqId == q.nextReqId
    ensures ValidRequests(q) ==> ValidRequests(r)
  {
    var q1 := if q.realTimeBarsReqId != -1 && connected then
                q.(realTimeBarsReqIdToSymbol := q.realTimeBarsReqIdToSymbol - {q.realTimeBarsReqId},
                   realTimeBarsReqId := -1)
              else q;
    if q1.tickByTickReqId != -1 && connected then q1.(tickByTickReqId := -1) else q1
  }

  /** `unsubscribeFromCurrentTicker`: the requests are cancelled and the duplicate guard reset. */
  function Unsubscribed(s: ManagerState, connected: bool): ManagerState
  {
    s.(requests := Cancelled(s.requests, connected), live := s.live.(lastCompletedBarTime := 0))
  }

  /** `subscribeToTickByTick`: a fresh request id routes ticks to the current key. */
  function TickByTickSubscribed(q: Requests, currentSymbol: string, connected: bool): (r: Requests)
    ensures currentSymbol != "" && connected ==>
      r.tickByTickReqId == q.nextReqId && r.nextReqId == q.nextReqId + 1
      && r.reqIdToSymbol == q.reqIdToSymbol[q.nextReqId := currentSymbol]
    ensures ValidRequests(q) && currentSymbol != "" && connected ==> q.nextReqId !in q.reqIdToSymbol
    ensures !(currentSymbol != "" && connected) ==> r == q
    ensures r.reqIdToTimeframe == q.reqIdToTimeframe && r.realTimeBarsReqIdToSymbol == q.realTimeBarsReqIdToSymbol
    ensures r.realTimeBarsReqId == q.realTimeBarsReqId
    ensures ValidRequests(q) ==> ValidRequests(r)
  {
    if currentSymbol == "" || !connected then q
    else q.(tickByTickReqId := q.nextReqId, nextReqId := q.nextReqId + 1,
            reqIdToSymbol := q.reqIdToSymbol[q.nextReqId := currentSymbol])
  }

  /** `subscribeToRealTimeBars`: a fresh request id routes 5-second bars to the current key. */
  function RealTimeBarsSubscribed(q: Requests, currentSymbol: string, connected: bool): (r: Requests)
    ensures currentSymbol != "" && connected ==>
      r.realTimeBarsReqId == q.nextReqId && r.nextReqId == q.nextReqId + 1
      && r.realTimeBarsReqIdToSymbol == q.realTimeBarsReqIdToSymbol[q.nextReqId := currentSymbol]
    ensures ValidRequests(q) && currentSymbol != "" && connected ==> q.nextReqId !in q.realTimeBarsReqIdToSymbol
    ensures !(currentSymbol != "" && connected) ==> r == q
    ensures r.reqIdToSymbol == q.reqIdToSymbol && r.reqIdToTimeframe == q.reqIdToTimeframe
    ensures r.tickByTickReqId == q.tickByTickReqId
    ensures ValidRequests(q) ==> ValidRequests(r)
  {
    if currentSymbol == "" || !connected then q
    else q.(realTimeBarsReqId := q.nextReqId, nextReqId := q.nextReqId + 1,
            realTimeBarsReqIdToSymbol := q.realTimeBarsReqIdToSymbol[q.nextReqId := currentSymbol])
  }

  /**
   * `setCurrentSymbol`: another key cancels the subscriptions, becomes current
   * with no aggregation running and no completed bar seen, and is subscribed
   * to tick-by-tick data; the current key changes nothing.
   */
  function SymbolSwitched(s: ManagerState, tickerKey: string, connected: bool): (r: ManagerState)
    ensures r.live.currentSymbol == tickerKey
    ensures s.live.currentSymbol == tickerKey ==> r == s
    ensures s.live.currentSymbol != tickerKey ==> !r.live.isAggregating && r.live.lastCompletedBarTime == 0
    ensures s.live.currentSymbol != tickerKey && connected && tickerKey != "" ==>
      r.requests.tickByTickReqId == s.requests.nextReqId
      && r.requests.reqIdToSymbol == s.requests.reqIdToSymbol[s.requests.nextReqId := tickerKey]
    ensures s.live.currentSymbol != tickerKey && connected ==> r.requests.realTimeBarsReqId == -1
    ensures r.tickerData == s.tickerData && r.contracts == s.contracts
    ensures r.live.currentTimeframe == s.live.currentTimeframe
    ensures r.requests.reqIdToTimeframe == s.requests.reqIdToTimeframe
    ensures ValidState(s) ==> ValidState(r)
  {
    if s.live.currentSymbol == tickerKey then s
    else
      var q := TickByTickSubscribed(Cancelled(s.requests, connected), tickerKey, connected);
      s.(requests := q, live := s.live.(lastCompletedBarTime := 0, currentSymbol := tickerKey, isAggregating := false))
  }

  /**
   * `activateTicker`: a non-empty exchange is remembered for the symbol and
   * the key; unless the key is already current, a new key gets a record and
   * becomes current. The flag tells whether `tickerActivated` is emitted.
   */
  function Activated(s: ManagerState, symbol: string, exchange: string, connected: bool): (r: (ManagerState, bool))
    ensures var key := MakeTickerKey(symbol, exchange);
      r.0.live.currentSymbol == key
      && (r.1 <==> s.live.currentSymbol != key)
      && (r.1 ==> key in r.0.tickerData)
      && (key !in s.tickerData && r.1 ==>
            r.0.tickerData[key]
            == NewRecord(symbol, exchange, s.contracts.symbolToContractId, s.contracts.tickerKeyToContractId))
      && (exchange != "" ==> r.0.contracts.symbolToExchange == s.contracts.symbolToExchange[symbol := exchange]
                             && r.0.contracts.tickerKeyToExchange == s.contracts.tickerKeyToExchange[key := exchange])
      && (exchange == "" ==> r.0.contracts == s.contracts)
    ensures forall k :: k in s.tickerData ==> k in r.0.tickerData && r.0.tickerData[k] == s.tickerData[k]
    ensures r.0.contracts == s.contracts.(symbolToExchange := r.0.contracts.symbolToExchange,
                                          tickerKeyToExchange := r.0.contracts.tickerKeyToExchange)
    ensures ValidState(s) ==> ValidState(r.0)
  {
    var key := MakeTickerKey(symbol, exchange);
    var c := if exchange != "" then s.contracts.(symbolToExchange := s.contracts.symbolToExchange[symbol := exchange],
                                                 tickerKeyToExchange := s.contracts.tickerKeyToExchange[key := exchange])
             else s.contracts;
    if s.live.currentSymbol == key then (s.(contracts := c), false)
    else
      var data := if key in s.tickerData then s.tickerData
                  else s.tickerData[key := NewRecord(symbol, exchange, c.symbolToContractId, c.tickerKeyToContractId)];
      (SymbolSwitched(s.(contracts := c, tickerData := data), key, connected), true)
  }

  /**
   * `loadTimeframe`: an unknown key does nothing; a loaded timeframe only
   * reports the symbol; otherwise a fresh request id, one above every id in
   * use, is mapped to the key and timeframe and a historical request is issued.
   */
  function TimeframeLoaded(s: ManagerState, tickerKey: string, tf: Timeframe): (r: (ManagerState, LoadOutcome))
    ensures tickerKey !in s.tickerData ==> r == (s, NotTracked)
    ensures tickerKey in s.tickerData && tf in s.tickerData[tickerKey].loaded ==>
      r == (s, AlreadyLoaded(s.tickerData[tickerKey].symbol))
    ensures r.1.Requested? <==> tickerKey in s.tickerData && tf !in s.tickerData[tickerKey].loaded
    ensures r.1.Requested? ==>
      var id := r.1.request.reqId;
      r.1.request == HistoricalRequestFor(s.requests.nextReqId, s.tickerData[tickerKey].symbol, tf)
      && r.0.requests.nextReqId == id + 1
      && r.0.requests.reqIdToSymbol == s.requests.reqIdToSymbol[id := tickerKey]
      && r.0.requests.reqIdToTimeframe == s.requests.reqIdToTimeframe[id := tf]
      && (ValidState(s) ==> id !in s.requests.reqIdToSymbol && id !in s.requests.reqIdToTimeframe)
    ensures r.0 == s.(requests := r.0.requests)
    ensures r.0.requests.realTimeBarsReqIdToSymbol == s.requests.realTimeBarsReqIdToSymbol
    ensures ValidState(s) ==> ValidState(r.0)
  {
    if tickerKey !in s.tickerData then (s, NotTracked)
    else
      var data := s.tickerData[tickerKey];
      if tf in data.loaded then (s, AlreadyLoaded(data.symbol))
      else
        var reqId := s.requests.nextReqId;
        (s.(requests := s.requests.(nextReqId := reqId + 1,
                                    reqIdToSymbol := s.requests.reqIdToSymbol[reqId := tickerKey],
                                    reqIdToTimeframe := s.requests.reqIdToTimeframe[reqId := tf])),
         Requested(HistoricalRequestFor(reqId, data.symbol, tf)))
  }

  /**
   * `setCurrentTimeframe`: a new timeframe becomes current with no
   * aggregation running and, when a key is current, is loaded for it.
   */
  function TimeframeSwitched(s: ManagerState, tf: Timeframe): (r: (ManagerState, Option<LoadOutcome>))
    ensures r.0.live.currentTimeframe == tf
    ensures s.live.currentTimeframe == tf ==> r == (s, None)
    ensures s.live.currentTimeframe != tf ==>
      !r.0.live.isAggregating
      && (s.live.currentSymbol == "" ==> r.1 == None)
      && (s.live.currentSymbol != "" ==>
            r.1 == Some(TimeframeLoaded(s, s.live.currentSymbol, tf).1))
    ensures r.0.tickerData == s.tickerData && r.0.live.currentSymbol == s.live.currentSymbol
    ensures ValidState(s) ==> ValidState(r.0)
  {
    if s.live.currentTimeframe == tf then (s, None)
    else
      var s1 := s.(live := s.live.(currentTimeframe := tf, isAggregating := false));
      if s1.live.currentSymbol != "" then
        var (s2, outcome) := TimeframeLoaded(s1, s1.live.currentSymbol, tf);
        (s2, Some(outcome))
      else (s1, None)
  }

  /** The timeframe recorded for a request id, the default one when none is (`operator[]`). */
  function TimeframeOf(q: Requests, reqId: int): Timeframe
  {
    if reqId in q.reqIdToTimeframe then q.reqIdToTimeframe[reqId] else DefaultTimeframe
  }

  /**
   * `onHistoricalBarReceived`: a bar for an unknown request id is ignored;
   * otherwise it goes to its ticker and timeframe, appended only when it is
   * newer than the last bar there, so every list stays strictly increasing.
   */
  function HistoricalBarAdded(s: ManagerState, reqId: int, bar: Bar): (r: ManagerState)
    ensures reqId !in s.requests.reqIdToSymbol ==> r == s
    ensures reqId in s.requests.reqIdToSymbol ==>
      var key := s.requests.reqIdToSymbol[reqId];
      var tf := TimeframeOf(s.requests, reqId);
      key in r.tickerData
      && BarsOf(r.tickerData[key], tf) == AppendIfNewer(BarsOf(RecordOf(s.tickerData, key), tf), bar)
      && (forall other :: other != tf ==>
            BarsOf(r.tickerData[key], other) == BarsOf(RecordOf(s.tickerData, key), other))
      && (forall k :: k in s.tickerData && k != key ==> k in r.tickerData && r.tickerData[k] == s.tickerData[k])
      && r.requests == s.requests.(reqIdToTimeframe := s.requests.reqIdToTimeframe[reqId := tf])
    ensures forall k, tf :: k in s.tickerData && Increasing(BarsOf(s.tickerData[k], tf)) ==>
      k in r.tickerData && Increasing(BarsOf(r.tickerData[k], tf))
    ensures r.live == s.live && r.contracts == s.contracts
    ensures ValidState(s) ==> ValidState(r)
  {
    if reqId !in s.requests.reqIdToSymbol then s
    else
      var key := s.requests.reqIdToSymbol[reqId];
      var tf := TimeframeOf(s.requests, reqId);
      s.(requests := s.requests.(reqIdToTimeframe := s.requests.reqIdToTimeframe[reqId := tf]),
         tickerData := s.tickerData[key := WithHistoricalBar(RecordOf(s.tickerData, key), tf, bar)])
  }

  /**
   * `onHistoricalDataFinished`: for a known request id the timeframe is marked
   * loaded, the bare symbol is reported, and the id leaves both request maps.
   */
  function HistoricalDataFinished(s: ManagerState, reqId: int): (r: (ManagerState, Option<string>))
    ensures reqId !in s.requests.reqIdToSymbol ==> r == (s, None)
    ensures reqId in s.requests.reqIdToSymbol ==>
      var key := s.requests.reqIdToSymbol[reqId];
      var record := RecordOf(s.tickerData, key);
      r.1 == Some(record.symbol)
      && key in r.0.tickerData
      && r.0.tickerData[key] == record.(loaded := record.loaded + {TimeframeOf(s.requests, reqId)})
      && r.0.requests == s.requests.(reqIdToSymbol := s.requests.reqIdToSymbol - {reqId},
                                     reqIdToTimeframe := s.requests.reqIdToTimeframe - {reqId})
    ensures reqId !in r.0.requests.reqIdToSymbol
    ensures r.0.live == s.live && r.0.contracts == s.contracts
    ensures ValidState(s) ==> ValidState(r.0)
  {
    if reqId !in s.requests.reqIdToSymbol then (s, None)
    else
      var key := s.requests.reqIdToSymbol[reqId];
      var record := RecordOf(s.tickerData, key);
      var data := record.(loaded := record.loaded + {TimeframeOf(s.requests, reqId)});
      (s.(tickerData := s.tickerData[key := data],
          requests := s.requests.(reqIdToSymbol := s.requests.reqIdToSymbol - {reqId},
                                  reqIdToTimeframe := s.requests.reqIdToTimeframe - {reqId})),
       Some(data.symbol))
  }

  /**
   * `removeTicker`: an absent key changes nothing; otherwise the record and
   * every request id mapped to the key go, and every other key, record and
   * request id stays as it was.
   */
  function TickerRemoved(s: ManagerState, symbol: string, exchange: string): (r: ManagerState)
    ensures var key := MakeTickerKey(symbol, exchange);
      var q, q' := s.requests, r.requests;
      (key !in s.tickerData ==> r == s)
      && (key in s.tickerData ==>
            key !in r.tickerData
            && (forall k :: k in s.tickerData && k != key ==> k in r.tickerData && r.tickerData[k] == s.tickerData[k])
            && (forall id :: id in q'.reqIdToSymbol ==> q'.reqIdToSymbol[id] != key)
            && (forall id :: id in q'.realTimeBarsReqIdToSymbol ==> q'.realTimeBarsReqIdToSymbol[id] != key)
            && (forall id :: id in q.reqIdToSymbol && q.reqIdToSymbol[id] != key ==>
                  id in q'.reqIdToSymbol && q'.reqIdToSymbol[id] == q.reqIdToSymbol[id])
            && (forall id :: id in q.reqIdToTimeframe && (id !in q.reqIdToSymbol || q.reqIdToSymbol[id] != key) ==>
                  id in q'.reqIdToTimeframe && q'.reqIdToTimeframe[id] == q.reqIdToTimeframe[id])
            && (forall id :: id in q.reqIdToSymbol && q.reqIdToSymbol[id] == key ==> id !in q'.reqIdToTimeframe)
            && (forall id :: id in q.realTimeBarsReqIdToSymbol && q.realTimeBarsReqIdToSymbol[id] != key ==>
                  id in q'.realTimeBarsReqIdToSymbol
                  && q'.realTimeBarsReqIdToSymbol[id] == q.realTimeBarsReqIdToSymbol[id]))
    ensures r.tickerData.Keys <= s.tickerData.Keys
    ensures r.live == s.live && r.contracts == s.contracts
    ensures r.requests.nextReqId == s.requests.nextReqId
    ensures ValidState(s) ==> ValidState(r)
  {
    var key := MakeTickerKey(symbol, exchange);
    if key !in s.tickerData then s
    else
      var ids := ReqIdsOf(s.requests.reqIdToSymbol, key);
      s.(tickerData := s.tickerData - {key},
         requests := s.requests.(
           reqIdToSymbol := s.requests.reqIdToSymbol - ids,
           reqIdToTimeframe := s.requests.reqIdToTimeframe - ids,
           realTimeBarsReqIdToSymbol := s.requests.realTimeBarsReqIdToSymbol
                                        - ReqIdsOf(s.requests.realTimeBarsReqIdToSymbol, key)))
  }

  /** `finalizeAggregationBar`: a running aggregated bar joins the current key's current timeframe. */
  function AggregationFinalized(s: ManagerState): (r: ManagerState)
    ensures !s.live.isAggregating ==> r == s
    ensures s.live.isAggregating ==>
      var key, tf := s.live.currentSymbol, s.live.currentTimeframe;
      key in r.tickerData
      && r.tickerData[key] == WithBar(RecordOf(s.tickerData, key), tf, s.live.aggregationBar)
      && BarsOf(r.tickerData[key], tf) == BarsOf(RecordOf(s.tickerData, key), tf) + [s.live.aggregationBar]
      && r.live == s.live.(isAggregating := false)
    ensures r.requests == s.requests && r.contracts == s.contracts
    ensures forall k :: k in s.tickerData && k != s.live.currentSymbol ==>
      k in r.tickerData && r.tickerData[k] == s.tickerData[k]
  {
    if !s.live.isAggregating then s
    else
      var key := s.live.currentSymbol;
      s.(tickerData := s.tickerData[key := WithBar(RecordOf(s.tickerData, key), s.live.currentTimeframe,
                                                   s.live.aggregationBar)],
         live := s.live.(isAggregating := false))
  }

  /** A 5-second bar that `onRealTimeBarReceived` processes: routed to the current key, and new. */
  predicate RealTimeBarAccepted(s: ManagerState, reqId: int, bar: Bar)
  {
    reqId in s.requests.realTimeBarsReqIdToSymbol
    && s.requests.realTimeBarsReqIdToSymbol[reqId] == s.live.currentSymbol
    && bar.timestamp != s.live.lastCompletedBarTime
  }

  /** The state after an accepted bar joined the 5-second cache. */
  function Cached(s: ManagerState, bar: Bar): ManagerState
  {
    var key := s.live.currentSymbol;
    s.(live := s.live.(lastCompletedBarTime := bar.timestamp),
       tickerData := s.tickerData[key := WithBar(RecordOf(s.tickerData, key), Sec5, bar)])
  }

  /**
   * The first half of the aggregation, for a bar of the bucket starting at
   * `start`: a bar outside the running bucket finalizes the running bar and
   * opens the bucket with it; a bar inside it is merged in.
   */
  function Opened(s: ManagerState, bar: Bar, start: int): (r: ManagerState)
    ensures r.live.isAggregating
  {
    if !s.live.isAggregating || s.live.aggregationBar.timestamp != start then
      var f := AggregationFinalized(s);
      f.(live := f.live.(aggregationBar := bar.(timestamp := start), isAggregating := true))
    else s.(live := s.live.(aggregationBar := Merge(s.live.aggregationBar, bar)))
  }

  /** The aggregation with the bucket given: opened or merged, then finalized when the bucket closes. */
  function AggregatedAt(s: ManagerState, bar: Bar, start: int, closes: bool): (r: ManagerState)
    ensures r.requests == s.requests && r.contracts == s.contracts
    ensures r.live.currentSymbol == s.live.currentSymbol && r.live.currentTimeframe == s.live.currentTimeframe
    ensures r.live.lastCompletedBarTime == s.live.lastCompletedBarTime
    ensures forall k :: k in s.tickerData && k != s.live.currentSymbol ==>
      k in r.tickerData && r.tickerData[k] == s.tickerData[k]
    ensures var key := s.live.currentSymbol;
      key in s.tickerData ==>
        (key in r.tickerData
         && forall other :: other != s.live.currentTimeframe ==>
              BarsOf(r.tickerData[key], other) == BarsOf(s.tickerData[key], other))
  {
    var s1 := Opened(s, bar, start);
    if closes then AggregationFinalized(s1) else s1
  }

  /** The aggregation half of `onRealTimeBarReceived`, for a timeframe above 5 seconds. */
  function Aggregated(s: ManagerState, bar: Bar): ManagerState
    requires s.live.currentTimeframe != Sec5
  {
    var barSeconds := TimeframeToSeconds(s.live.currentTimeframe);
    AggregatedAt(s, bar, BucketStart(bar.timestamp, barSeconds), CppRem(bar.timestamp + 5, barSeconds) == 0)
  }

  /**
   * `onRealTimeBarReceived`: an accepted bar is appended to the 5-second cache
   * of the current key and, unless the current timeframe is 5 seconds,
   * aggregated into the current timeframe; any other bar changes nothing.
   */
  function RealTimeBarAdded(s: ManagerState, reqId: int, bar: Bar): (r: ManagerState)
    ensures !RealTimeBarAccepted(s, reqId, bar) ==> r == s
    ensures RealTimeBarAccepted(s, reqId, bar) ==>
      var key := s.live.currentSymbol;
      r.live.lastCompletedBarTime == bar.timestamp
      && key in r.tickerData
      && BarsOf(r.tickerData[key], Sec5) == BarsOf(RecordOf(s.tickerData, key), Sec5) + [bar]
      && (forall k :: k in s.tickerData && k != key ==> k in r.tickerData && r.tickerData[k] == s.tickerData[k])
    ensures r.requests == s.requests && r.contracts == s.contracts
    ensures ValidState(s) ==> ValidState(r)
  {
    if !RealTimeBarAccepted(s, reqId, bar) then s
    else
      var s1 := Cached(s, bar);
      if s1.live.currentTimeframe == Sec5 then s1 else Aggregated(s1, bar)
  }

  /**
   * `onContractDetailsReceived`: the answer is counted; its contract id is
   * stored when `StoresContract` says so; the first exchange seen for the
   * symbol and for the key is remembered.
   */
  function ContractDetailsAdded(c: Contracts, reqId: int, symbol: string, exchange: string, conId: int): (r: Contracts)
    ensures r.contractSearches == c.contractSearches[reqId := CountContract(SearchInfo(c.contractSearches, reqId),
      StoresContract(symbol, exchange, c.symbolToExchange, c.symbolToContractId), symbol + "@" + exchange)]
    ensures StoresContract(symbol, exchange, c.symbolToExchange, c.symbolToContractId) ==>
      r.symbolToContractId == c.symbolToContractId[symbol := conId]
      && r.tickerKeyToContractId == c.tickerKeyToContractId[MakeTickerKey(symbol, exchange) := conId]
    ensures !StoresContract(symbol, exchange, c.symbolToExchange, c.symbolToContractId) ==>
      r.symbolToContractId == c.symbolToContractId && r.tickerKeyToContractId == c.tickerKeyToContractId
    ensures symbol in r.symbolToExchange
      && r.symbolToExchange[symbol] == (if symbol in c.symbolToExchange then c.symbolToExchange[symbol] else exchange)
    ensures var key := MakeTickerKey(symbol, exchange);
      key in r.tickerKeyToExchange
      && r.tickerKeyToExchange[key] == (if key in c.tickerKeyToExchange then c.tickerKeyToExchange[key] else exchange)
    ensures forall k :: k in c.symbolToExchange ==> k in r.symbolToExchange && r.symbolToExchange[k] == c.symbolToExchange[k]
    ensures SearchesBounded(c.contractSearches) ==> SearchesBounded(r.contractSearches)
  {
    var stored := StoresContract(symbol, exchange, c.symbolToExchange, c.symbolToContractId);
    var key := MakeTickerKey(symbol, exchange);
    CountKeepsBounded(c.contractSearches, reqId, stored, symbol + "@" + exchange);
    Contracts(
      if symbol in c.symbolToExchange then c.symbolToExchange else c.symbolToExchange[symbol := exchange],
      if key in c.tickerKeyToExchange then c.tickerKeyToExchange else c.tickerKeyToExchange[key := exchange],
      if stored then c.symbolToContractId[symbol := conId] else c.symbolToContractId,
      if stored then c.tickerKeyToContractId[key := conId] else c.tickerKeyToContractId,
      c.contractSearches[reqId := CountContract(SearchInfo(c.contractSearches, reqId), stored, symbol + "@" + exchange)])
  }

  /** Counting one more answer keeps every search record within its bounds. */
  lemma CountKeepsBounded(searches: map<int, ContractSearchInfo>, reqId: int, stored: bool, entry: string)
    ensures SearchesBounded(searches) ==>
      SearchesBounded(searches[reqId := CountContract(SearchInfo(searches, reqId), stored, entry)])
  {
    if SearchesBounded(searches) {
      var info := SearchInfo(searches, reqId);
      assert |info.foundContracts| <= 5 && |info.foundContracts| <= info.totalCount;
    }
  }

  /** `onContractSearchFinished`: the search record of the request id is dropped. */
  function ContractSearchFinished(c: Contracts, reqId: int): (r: Contracts)
    ensures reqId !in r.contractSearches
    ensures forall id :: id in c.contractSearches && id != reqId ==>
      id in r.contractSearches && r.contractSearches[id] == c.contractSearches[id]
    ensures r == c.(contractSearches := r.contractSearches)
    ensures SearchesBounded(c.contractSearches) ==> SearchesBounded(r.contractSearches)
  {
    if reqId in c.contractSearches then c.(contractSearches := c.contractSearches - {reqId}) else c
  }

  // ---------------------------------------------------------------- the manager

  /**
   * The manager object. Its member variables are kept in the four groups of
   * `ManagerState`; each method changes only the groups it names.
   */
  class TickerDataManager {
    var tickerData: map<string, TickerRecord>
    var requests: Requests
    var live: Live
    var contracts: Contracts

    function State(): ManagerState
      reads this
    {
      ManagerState(tickerData, requests, live, contracts)
    }

    predicate Valid()
      reads this
    {
      ValidState(State())
    }

    constructor()
      ensures State() == InitialState && Valid()
    {
      tickerData := map[];
      requests := Requests(map[], map[], map[], 2000, -1, -1);
      live := Live("", Sec10, 0, false, Bar(0, 0.0, 0.0, 0.0, 0.0, 0));
      contracts := Contracts(map[], map[], map[], map[], map[]);
    }

    method SetContractId(symbol: string, exchange: string, conId: int)
      modifies this
      requires Valid()
      ensures State() == old(State()).(contracts := ContractIdSet(old(contracts), symbol, exchange, conId))
      ensures Valid()
    {
      if conId > 0 {
        var tickerKey := MakeTickerKey(symbol, exchange);
        contracts := contracts.(symbolToContractId := contracts.symbolToContractId[symbol := conId]);
        contracts := contracts.(tickerKeyToContractId := contracts.tickerKeyToContractId[tickerKey := conId]);
      }
    }

    method SetExpectedExchange(symbol: string, exchange: string)
      modifies this
      requires Valid()
      ensures State() == old(State()).(contracts := ExpectedExchangeSet(old(contracts), symbol, exchange))
      ensures Valid()
    {
      if exchange != "" {
        contracts := contracts.(symbolToExchange := contracts.symbolToExchange[symbol := exchange]);
      }
    }

    method UnsubscribeFromCurrentTicker(connected: bool)
      modifies this
      requires Valid()
      ensures State() == Unsubscribed(old(State()), connected)
      ensures Valid()
    {
      if requests.realTimeBarsReqId != -1 && connected {
        requests := requests.(realTimeBarsReqIdToSymbol := requests.realTimeBarsReqIdToSymbol - {requests.realTimeBarsReqId});
        requests := requests.(realTimeBarsReqId := -1);
      }
      if requests.tickByTickReqId != -1 && connected {
        requests := requests.(tickByTickReqId := -1);
      }
      live := live.(lastCompletedBarTime := 0);
    }

    method SubscribeToTickByTick(connected: bool)
      modifies this
      requires Valid()
      ensures State() == old(State()).(requests := TickByTickSubscribed(old(requests), live.currentSymbol, connected))
      ensures Valid()
    {
      if live.currentSymbol == "" || !connected {
        return;
      }
      var reqId := requests.nextReqId;
      requests := requests.(tickByTickReqId := reqId, nextReqId := reqId + 1);
      requests := requests.(reqIdToSymbol := requests.reqIdToSymbol[reqId := live.currentSymbol]);
    }

    method SubscribeToRealTimeBars(connected: bool)
      modifies this
      requires Valid()
      ensures State() == old(State()).(requests := RealTimeBarsSubscribed(old(requests), live.currentSymbol, connected))
      ensures Valid()
    {
      if live.currentSymbol == "" || !connected {
        return;
      }
      var reqId := requests.nextReqId;
      requests := requests.(realTimeBarsReqId := reqId, nextReqId := reqId + 1);
      requests := requests.(realTimeBarsReqIdToSymbol := requests.realTimeBarsReqIdToSymbol[reqId := live.currentSymbol]);
    }

    /** `onReconnected`, through `subscribeToCurrentTicker`: tick-by-tick, then real-time bars. */
    method OnReconnected(connected: bool)
      modifies this
      requires Valid()
      ensures State() == old(State()).(requests := RealTimeBarsSubscribed(
        TickByTickSubscribed(old(requests), live.currentSymbol, connected), live.currentSymbol, connected))
      ensures Valid()
    {
      SubscribeToTickByTick(connected);
      SubscribeToRealTimeBars(connected);
    }

    method SetCurrentSymbol(tickerKey: string, connected: bool)
      modifies this
      requires Valid()
      ensures State() == SymbolSwitched(old(State()), tickerKey, connected)
      ensures Valid()
    {
      if live.currentSymbol != tickerKey {
        UnsubscribeFromCurrentTicker(connected);
        live := live.(currentSymbol := tickerKey, isAggregating := false);
        SubscribeToTickByTick(connected);
      }
    }

    method ActivateTicker(symbol: string, exchange: string, connected: bool) returns (activated: bool)
      modifies this
      requires Valid()
      ensures (State(), activated) == Activated(old(State()), symbol, exchange, connected)
      ensures Valid()
    {
      var tickerKey := MakeTickerKey(symbol, exchange);
      if exchange != "" {
        contracts := contracts.(symbolToExchange := contracts.symbolToExchange[symbol := exchange]);
        contracts := contracts.(tickerKeyToExchange := contracts.tickerKeyToExchange[tickerKey := exchange]);
      }
      if live.currentSymbol == tickerKey {
        return false;
      }
      if tickerKey !in tickerData {
        var record := NewRecord(symbol, exchange, contracts.symbolToContractId, contracts.tickerKeyToContractId);
        tickerData := tickerData[tickerKey := record];
      }
      SetCurrentSymbol(tickerKey, connected);
      activated := true;
    }

    method LoadTimeframe(tickerKey: string, tf: Timeframe) returns (outcome: LoadOutcome)
      modifies this
      requires Valid()
      ensures (State(), outcome) == TimeframeLoaded(old(State()), tickerKey, tf)
      ensures Valid()
    {
      if tickerKey !in tickerData {
        return NotTracked;
      }
      var data := tickerData[tickerKey];
      if tf in data.loaded {
        return AlreadyLoaded(data.symbol);
      }
      ghost var expected := TimeframeLoaded(State(), tickerKey, tf);
      var reqId := requests.nextReqId;
      requests := requests.(nextReqId := reqId + 1);
      requests := requests.(reqIdToSymbol := requests.reqIdToSymbol[reqId := tickerKey]);
      requests := requests.(reqIdToTimeframe := requests.reqIdToTimeframe[reqId := tf]);
      outcome := Requested(HistoricalRequestFor(reqId, data.symbol, tf));
      assert requests == expected.0.requests;
    }

    method SetCurrentTimeframe(tf: Timeframe) returns (outcome: Option<LoadOutcome>)
      modifies this
      requires Valid()
      ensures (State(), outcome) == TimeframeSwitched(old(State()), tf)
      ensures Valid()
    {
      outcome := None;
      if live.currentTimeframe != tf {
        live := live.(currentTimeframe := tf, isAggregating := false);
        if live.currentSymbol != "" {
          var loaded := LoadTimeframe(live.currentSymbol, live.currentTimeframe);
          outcome := Some(loaded);
        }
      }
    }

    method OnHistoricalBarReceived(reqId: int, bar: Bar)
      modifies this
      requires Valid()
      ensures State() == HistoricalBarAdded(old(State()), reqId, bar)
      ensures Valid()
    {
      if reqId !in requests.reqIdToSymbol {
        return;
      }
      var tickerKey := requests.reqIdToSymbol[reqId];
      var timeframe := if reqId in requests.reqIdToTimeframe then requests.reqIdToTimeframe[reqId] else DefaultTimeframe;
      requests := requests.(reqIdToTimeframe := requests.reqIdToTimeframe[reqId := timeframe]);
      var data := RecordOf(tickerData, tickerKey);
      var bars := BarsOf(data, timeframe);
      if |bars| == 0 || bars[|bars| - 1].timestamp < bar.timestamp {
        bars := bars + [bar];
        data := data.(lastBarTimestamp := data.lastBarTimestamp[timeframe := bar.timestamp]);
      }
      data := data.(barsByTimeframe := data.barsByTimeframe[timeframe := bars]);
      tickerData := tickerData[tickerKey := data];
    }

    method OnHistoricalDataFinished(reqId: int) returns (loadedSymbol: Option<string>)
      modifies this
      requires Valid()
      ensures (State(), loadedSymbol) == HistoricalDataFinished(old(State()), reqId)
      ensures Valid()
    {
      if reqId !in requests.reqIdToSymbol {
        return None;
      }
      var tickerKey := requests.reqIdToSymbol[reqId];
      var timeframe := if reqId in requests.reqIdToTimeframe then requests.reqIdToTimeframe[reqId] else DefaultTimeframe;
      var data := RecordOf(tickerData, tickerKey);
      data := data.(loaded := data.loaded + {timeframe});
      tickerData := tickerData[tickerKey := data];
      loadedSymbol := Some(data.symbol);
      requests := requests.(reqIdToSymbol := requests.reqIdToSymbol - {reqId});
      requests := requests.(reqIdToTimeframe := requests.reqIdToTimeframe - {reqId});
    }

    /** `removeTicker`, with its collect-then-remove loops over the request maps. */
    method RemoveTicker(symbol: string, exchange: string)
      modifies this
      requires Valid()
      ensures State() == TickerRemoved(old(State()), symbol, exchange)
      ensures Valid()
    {
      var tickerKey := MakeTickerKey(symbol, exchange);
      if tickerKey !in tickerData {
        return;
      }
      tickerData := tickerData - {tickerKey};
      var reqIdsToRemove := CollectReqIds(requests.reqIdToSymbol, tickerKey);
      RemoveHistoricalRequests(reqIdsToRemove);
      var rtReqIdsToRemove := CollectReqIds(requests.realTimeBarsReqIdToSymbol, tickerKey);
      RemoveRealTimeRequests(rtReqIdsToRemove);
    }

    /** The first removal loop of `removeTicker`: the ids leave both historical-request maps. */
    method RemoveHistoricalRequests(ids: set<int>)
      modifies this
      ensures requests == old(requests).(reqIdToSymbol := old(requests.reqIdToSymbol) - ids,
                                         reqIdToTimeframe := old(requests.reqIdToTimeframe) - ids)
      ensures tickerData == old(tickerData) && live == old(live) && contracts == old(contracts)
    {
      var pending := ids;
      while pending != {}
        invariant pending <= ids
        invariant requests == old(requests).(reqIdToSymbol := old(requests.reqIdToSymbol) - (ids - pending),
                                             reqIdToTimeframe := old(requests.reqIdToTimeframe) - (ids - pending))
        invariant tickerData == old(tickerData) && live == old(live) && contracts == old(contracts)
        decreases pending
      {
        EmptyOrElement(pending);
        var reqId :| reqId in pending;
        requests := requests.(reqIdToSymbol := requests.reqIdToSymbol - {reqId},
                              reqIdToTimeframe := requests.reqIdToTimeframe - {reqId});
        pending := pending - {reqId};
      }
    }

    /** The second removal loop of `removeTicker`: the ids stop routing real-time bars. */
    method RemoveRealTimeRequests(ids: set<int>)
      modifies this
      ensures requests == old(requests).(realTimeBarsReqIdToSymbol := old(requests.realTimeBarsReqIdToSymbol) - ids)
      ensures tickerData == old(tickerData) && live == old(live) && contracts == old(contracts)
    {
      var pending := ids;
      while pending != {}
        invariant pending <= ids
        invariant requests == old(requests).(realTimeBarsReqIdToSymbol :=
                                               old(requests.realTimeBarsReqIdToSymbol) - (ids - pending))
        invariant tickerData == old(tickerData) && live == old(live) && contracts == old(contracts)
        decreases pending
      {
        EmptyOrElement(pending);
        var reqId :| reqId in pending;
        requests := requests.(realTimeBarsReqIdToSymbol := requests.realTimeBarsReqIdToSymbol - {reqId});
        pending := pending - {reqId};
      }
    }

    method FinalizeAggregationBar()
      modifies this
      requires Valid()
      ensures State() == AggregationFinalized(old(State()))
      ensures Valid()
    {
      if !live.isAggregating {
        return;
      }
      var record := WithBar(RecordOf(tickerData, live.currentSymbol), live.currentTimeframe, live.aggregationBar);
      tickerData := tickerData[live.currentSymbol := record];
      live := live.(isAggregating := false);
    }

    /** The aggregation half of `onRealTimeBarReceived`. */
    method AggregateRealTimeBar(bar: Bar)
      modifies this
      requires Valid() && live.currentTimeframe != Sec5
      ensures State() == Aggregated(old(State()), bar)
      ensures Valid()
    {
      var barSeconds := TimeframeToSeconds(live.currentTimeframe);
      var barTimestamp := BucketStart(bar.timestamp, barSeconds);
      if !live.isAggregating || live.aggregationBar.timestamp != barTimestamp {
        FinalizeAggregationBar();
        live := live.(aggregationBar := bar.(timestamp := barTimestamp), isAggregating := true);
      } else {
        live := live.(aggregationBar := Merge(live.aggregationBar, bar));
      }
      if CppRem(bar.timestamp + 5, barSeconds) == 0 {
        FinalizeAggregationBar();
      }
    }

    method OnRealTimeBarReceived(reqId: int, bar: Bar)
      modifies this
      requires Valid()
      ensures State() == RealTimeBarAdded(old(State()), reqId, bar)
      ensures Valid()
    {
      if reqId !in requests.realTimeBarsReqIdToSymbol {
        return;
      }
      var tickerKey := requests.realTimeBarsReqIdToSymbol[reqId];
      if tickerKey != live.currentSymbol || bar.timestamp == live.lastCompletedBarTime {
        return;
      }
      live := live.(lastCompletedBarTime := bar.timestamp);
      tickerData := tickerData[tickerKey := WithBar(RecordOf(tickerData, tickerKey), Sec5, bar)];
      if live.currentTimeframe != Sec5 {
        AggregateRealTimeBar(bar);
      }
    }

    method OnContractDetailsReceived(reqId: int, symbol: string, exchange: string, conId: int)
      modifies this
      requires Valid()
      ensures State() == old(State()).(contracts := ContractDetailsAdded(old(contracts), reqId, symbol, exchange, conId))
      ensures Valid()
    {
      var tickerKey := MakeTickerKey(symbol, exchange);
      var searchInfo := SearchInfo(contracts.contractSearches, reqId);
      searchInfo := searchInfo.(totalCount := searchInfo.totalCount + 1);
      var symbolToContractId, tickerKeyToContractId := contracts.symbolToContractId, contracts.tickerKeyToContractId;
      var wasStored := false;
      if symbol in contracts.symbolToExchange {
        if contracts.symbolToExchange[symbol] == exchange {
          symbolToContractId := symbolToContractId[symbol := conId];
          tickerKeyToContractId := tickerKeyToContractId[tickerKey := conId];
          wasStored := true;
        }
      } else if symbol !in symbolToContractId {
        symbolToContractId := symbolToContractId[symbol := conId];
        tickerKeyToContractId := tickerKeyToContractId[tickerKey := conId];
        wasStored := true;
      }
      if wasStored && |searchInfo.foundContracts| < 5 {
        searchInfo := searchInfo.(foundContracts := searchInfo.foundContracts + [symbol + "@" + exchange]);
      }
      var symbolToExchange, tickerKeyToExchange := contracts.symbolToExchange, contracts.tickerKeyToExchange;
      if symbol !in symbolToExchange {
        symbolToExchange := symbolToExchange[symbol := exchange];
      }
      if tickerKey !in tickerKeyToExchange {
        tickerKeyToExchange := tickerKeyToExchange[tickerKey := exchange];
      }
      contracts := Contracts(symbolToExchange, tickerKeyToExchange, symbolToContractId, tickerKeyToContractId,
                             contracts.contractSearches[reqId := searchInfo]);
    }

    method OnContractSearchFinished(reqId: int)
      modifies this
      requires Valid()
      ensures State() == old(State()).(contracts := ContractSearchFinished(old(contracts), reqId))
      ensures Valid()
    {
      if reqId in contracts.contractSearches {
        contracts := contracts.(contractSearches := contracts.contractSearches - {reqId});
      }
    }
  }

  // ---------------------------------------------------------------- properties across operations

  lemma WithBarsSnoc(record: TickerRecord, tf: Timeframe, done: seq<Bar>, bar: Bar)
    ensures WithBars(record, tf, done + [bar]) == WithBar(WithBars(record, tf, done), tf, bar)
  {
    assert (done + [bar])[..|done|] == done;
  }

  /** Opening or merging leaves the bars `AggregateFrom` completes before the bucket closes. */
  lemma OpenedFollowsStep(s: ManagerState, bar: Bar, start: int)
    ensures var key, tf := s.live.currentSymbol, s.live.currentTimeframe;
      var done := if s.live.isAggregating && s.live.aggregationBar.timestamp != start then [s.live.aggregationBar] else [];
      var r := Opened(s, bar, start);
      RecordOf(r.tickerData, key) == WithBars(RecordOf(s.tickerData, key), tf, done)
      && r.live == s.live.(isAggregating := true, aggregationBar :=
           AggregateFrom(Aggregation(s.live.isAggregating, s.live.aggregationBar), bar, start, false).0.bar)
  {
    if s.live.isAggregating && s.live.aggregationBar.timestamp != start {
      var key, tf := s.live.currentSymbol, s.live.currentTimeframe;
      WithBarsSnoc(RecordOf(s.tickerData, key), tf, [], s.live.aggregationBar);
      assert [] + [s.live.aggregationBar] == [s.live.aggregationBar];
    }
  }

  /**
   * The aggregation appends exactly the bars `AggregateFrom` completes to the
   * current timeframe of the current key, and leaves the aggregation where
   * `AggregateFrom` leaves it.
   */
  lemma AggregatedFollowsStep(s: ManagerState, bar: Bar, start: int, closes: bool)
    ensures var key, tf := s.live.currentSymbol, s.live.currentTimeframe;
      var step := AggregateFrom(Aggregation(s.live.isAggregating, s.live.aggregationBar), bar, start, closes);
      var r := AggregatedAt(s, bar, start, closes);
      RecordOf(r.tickerData, key) == WithBars(RecordOf(s.tickerData, key), tf, step.1)
      && Aggregation(r.live.isAggregating, r.live.aggregationBar) == step.0
  {
    var key, tf := s.live.currentSymbol, s.live.currentTimeframe;
    var done := if s.live.isAggregating && s.live.aggregationBar.timestamp != start then [s.live.aggregationBar] else [];
    OpenedFollowsStep(s, bar, start);
    if closes {
      WithBarsSnoc(RecordOf(s.tickerData, key), tf, done, Opened(s, bar, start).live.aggregationBar);
    }
  }

  /**
   * An accepted 5-second bar, with a timeframe above 5 seconds, leaves the
   * current key's record with the completed bars of `AggregateStep` appended
   * after the cached 5-second bar, and the aggregation where `AggregateStep`
   * leaves it.
   */
  lemma RealTimeBarAggregates(s: ManagerState, reqId: int, bar: Bar)
    requires RealTimeBarAccepted(s, reqId, bar) && s.live.currentTimeframe != Sec5
    ensures var key := s.live.currentSymbol;
      var tf := s.live.currentTimeframe;
      var cached := WithBar(RecordOf(s.tickerData, key), Sec5, bar);
      var step := AggregateStep(Aggregation(s.live.isAggregating, s.live.aggregationBar), bar, TimeframeToSeconds(tf));
      var r := RealTimeBarAdded(s, reqId, bar);
      key in r.tickerData && r.tickerData[key] == WithBars(cached, tf, step.1)
      && Aggregation(r.live.isAggregating, r.live.aggregationBar) == step.0
  {
    var barSeconds := TimeframeToSeconds(s.live.currentTimeframe);
    AggregatedFollowsStep(Cached(s, bar), bar, BucketStart(bar.timestamp, barSeconds),
                          CppRem(bar.timestamp + 5, barSeconds) == 0);
  }

  /**
   * Loading a timeframe and then finishing its request marks the timeframe
   * loaded, so loading it again issues no request and only reports the
   * symbol, and the request maps are back to what they were.
   */
  lemma LoadFinishLoad(s: ManagerState, tickerKey: string, tf: Timeframe)
    requires ValidState(s) && tickerKey in s.tickerData && tf !in s.tickerData[tickerKey].loaded
    ensures var (s1, outcome) := TimeframeLoaded(s, tickerKey, tf);
      outcome.Requested?
      && var (s2, loadedSymbol) := HistoricalDataFinished(s1, outcome.request.reqId);
      loadedSymbol == Some(s.tickerData[tickerKey].symbol)
      && TimeframeLoaded(s2, tickerKey, tf) == (s2, AlreadyLoaded(s.tickerData[tickerKey].symbol))
      && s2.requests.reqIdToSymbol == s.requests.reqIdToSymbol
      && s2.requests.reqIdToTimeframe == s.requests.reqIdToTimeframe
  {
    var (s1, outcome) := TimeframeLoaded(s, tickerKey, tf);
    var id := outcome.request.reqId;
    assert s1.requests.reqIdToSymbol - {id} == s.requests.reqIdToSymbol;
    assert s1.requests.reqIdToTimeframe - {id} == s.requests.reqIdToTimeframe;
  }

  /**
   * With no expected exchange and no contract id for a symbol, the first
   * answer's exchange becomes the expected one: a second answer replaces the
   * stored id exactly when it comes from that same exchange.
   */
  lemma FirstExchangeGuardsLaterAnswers(c: Contracts, reqId: int, symbol: string,
                                        exchange1: string, conId1: int, exchange2: string, conId2: int)
    requires symbol !in c.symbolToExchange && symbol !in c.symbolToContractId
    ensures var c1 := ContractDetailsAdded(c, reqId, symbol, exchange1, conId1);
      var c2 := ContractDetailsAdded(c1, reqId, symbol, exchange2, conId2);
      c2.symbolToContractId[symbol] == (if exchange2 == exchange1 then conId2 else conId1)
      && c2.symbolToExchange[symbol] == exchange1
      && c2.contractSearches[reqId].totalCount == SearchInfo(c.contractSearches, reqId).totalCount + 2
  {
    var c1 := ContractDetailsAdded(c, reqId, symbol, exchange1, conId1);
    assert StoresContract(symbol, exchange1, c.symbolToExchange, c.symbolToContractId);
    assert c1.symbolToExchange[symbol] == exchange1;
  }
}
