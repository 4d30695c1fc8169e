/**
 * The symbol search manager of the desktop application: searches get request
 * ids from a counter starting at 10000 and wait in a pending table; when TWS
 * answers, a search without an expected exchange hands every result on, and a
 * search with one picks the first result whose symbol and exchange equal the
 * requested ones, ignoring case.
 */
module SymbolSearch {
  import opened Wrappers
  import opened Text
  import opened TickerData

  /** A pending search: the upper-cased symbol, the upper-cased expected exchange ("" for none) and the caller's id. */
  datatype SearchRequest = SearchRequest(symbol: string, expectedExchange: string, callbackId: int)

  /** One contract description of a TWS symbol-search answer: symbol, description and exchange. */
  datatype SearchResult = SearchResult(symbol: string, description: string, exchange: string)

  /** What an answer leads to: nothing, all results handed on, or a found or not-found report. */
  datatype SearchOutcome =
    | Ignored
    | AllResults(reqId: int, results: seq<SearchResult>, symbolToConId: map<string, int>)
    | Found(callbackId: int, symbol: string, exchange: string, conId: int)
    | NotFound(callbackId: int, symbol: string, exchange: string)

  const FirstReqId := 10000

  predicate Matches(result: SearchResult, request: SearchRequest)
  {
    Upper(result.symbol) == request.symbol && Upper(result.exchange) == request.expectedExchange
  }

  /** The index of the first result matching the request, if any. */
  function FirstMatch(results: seq<SearchResult>, request: SearchRequest): (r: Option<nat>)
    ensures r.Some? ==>
      (r.value < |results| && Matches(results[r.value], request)
       && forall j :: 0 <= j < r.value ==> !Matches(results[j], request))
    ensures r.None? <==> forall j :: 0 <= j < |results| ==> !Matches(results[j], request)
    decreases |results|
  {
    if |results| == 0 then None
    else if Matches(results[0], request) then Some(0)
    else
      match FirstMatch(results[1..], request)
      case None => None
      case Some(i) => Some(i + 1)
  }

  /** `symbolToConId.value(symbol@exchange, 0)`. */
  function ConIdOf(symbolToConId: map<string, int>, symbol: string, exchange: string): int
  {
    var key := symbol + "@" + exchange;
    if key in symbolToConId then symbolToConId[key] else 0
  }

  /**
   * `onSymbolSearchResultsReceived` on the pending table: an unknown request
   * id changes nothing; a known one is removed before anything is reported.
   */
  function SearchAnswered(pending: map<int, SearchRequest>, reqId: int, results: seq<SearchResult>,
                          symbolToConId: map<string, int>): (r: (map<int, SearchRequest>, SearchOutcome))
    ensures reqId !in pending <==> r.1.Ignored?
    ensures reqId !in pending ==> r.0 == pending
    ensures reqId in pending ==> r.0 == pending - {reqId}
    ensures reqId in pending && pending[reqId].expectedExchange == "" ==>
      r.1 == AllResults(reqId, results, symbolToConId)
    ensures r.1.AllResults? <==> reqId in pending && pending[reqId].expectedExchange == ""
    ensures r.1.Found? ==>
      var request := pending[reqId];
      r.1.callbackId == request.callbackId
      && exists i :: 0 <= i < |results| && Matches(results[i], request)
                     && (forall j :: 0 <= j < i ==> !Matches(results[j], request))
                     && r.1 == Found(request.callbackId, results[i].symbol, results[i].exchange,
                                     ConIdOf(symbolToConId, results[i].symbol, results[i].exchange))
    ensures r.1.NotFound? <==>
      reqId in pending && pending[reqId].expectedExchange != ""
      && forall j :: 0 <= j < |results| ==> !Matches(results[j], pending[reqId])
    ensures r.1.NotFound? ==>
      r.1 == NotFound(pending[reqId].callbackId, pending[reqId].symbol, pending[reqId].expectedExchange)
  {
    if reqId !in pending then (pending, Ignored)
    else
      var request := pending[reqId];
      var rest := pending - {reqId};
      if request.expectedExchange == "" then (rest, AllResults(reqId, results, symbolToConId))
      else
        match FirstMatch(results, request)
        case None => (rest, NotFound(request.callbackId, request.symbol, request.expectedExchange))
        case Some(i) =>
          (rest, Found(request.callbackId, results[i].symbol, results[i].exchange,
                       ConIdOf(symbolToConId, results[i].symbol, results[i].exchange)))
  }

  /** Every pending search has an id the counter has already handed out. */
  predicate IdsBelow(pending: map<int, SearchRequest>, nextReqId: int)
  {
    forall id :: id in pending ==> FirstReqId <= id < nextReqId
  }

  class SymbolSearchManager {
    var nextReqId: int
    var pendingSearches: map<int, SearchRequest>

    predicate Valid()
      reads this
    {
      FirstReqId <= nextReqId && IdsBelow(pendingSearches, nextReqId)
    }

    constructor()
      ensures Valid() && nextReqId == FirstReqId && pendingSearches == map[]
    {
      nextReqId := FirstReqId;
      pendingSearches := map[];
    }

    /**
     * `searchSymbolWithExchange`: the search gets the next request id, which
     * no pending search holds, and waits under it with the upper-cased symbol
     * and exchange.
     */
    method SearchSymbolWithExchange(symbol: string, expectedExchange: string, callbackId: int) returns (reqId: int)
      modifies this
      requires Valid()
      ensures Valid()
      ensures reqId == old(nextReqId) && nextReqId == reqId + 1 && reqId !in old(pendingSearches)
      ensures pendingSearches == old(pendingSearches)[reqId := SearchRequest(Upper(symbol), Upper(expectedExchange), callbackId)]
    {
      reqId := nextReqId;
      nextReqId := nextReqId + 1;
      pendingSearches := pendingSearches[reqId := SearchRequest(Upper(symbol), Upper(expectedExchange), callbackId)];
    }

    /** `searchSymbol`: as above, with no expected exchange and callback id 0. */
    method SearchSymbolOnly(symbol: string) returns (reqId: int)
      modifies this
      requires Valid()
      ensures Valid()
      ensures reqId == old(nextReqId) && nextReqId == reqId + 1 && reqId !in old(pendingSearches)
      ensures pendingSearches == old(pendingSearches)[reqId := SearchRequest(Upper(symbol), "", 0)]
    {
      reqId := nextReqId;
      nextReqId := nextReqId + 1;
      pendingSearches := pendingSearches[reqId := SearchRequest(Upper(symbol), "", 0)];
    }

    /** `onSymbolSearchResultsReceived`, with its scan for the first match. */
    method OnSymbolSearchResultsReceived(reqId: int, results: seq<SearchResult>, symbolToConId: map<string, int>)
      returns (outcome: SearchOutcome)
      modifies this
      requires Valid()
      ensures Valid() && nextReqId == old(nextReqId)
      ensures (pendingSearches, outcome) == SearchAnswered(old(pendingSearches), reqId, results, symbolToConId)
    {
      if reqId !in pendingSearches {
        return Ignored;
      }
      var request := pendingSearches[reqId];
      pendingSearches := pendingSearches - {reqId};
      if request.expectedExchange == "" {
        return AllResults(reqId, results, symbolToConId);
      }
      var found := false;
      var matched := 0;
      var i := 0;
      while i < |results|
        invariant 0 <= i <= |results|
        invariant !found
        invariant forall j :: 0 <= j < i ==> !Matches(results[j], request)
      {
        if Upper(results[i].symbol) == request.symbol && Upper(results[i].exchange) == request.expectedExchange {
          found := true;
          matched := i;
          break;
        }
        i := i + 1;
      }
      assert found ==> FirstMatch(results, request) == Some(matched);
      assert !found ==> FirstMatch(results, request) == None;
      if found {
        var result := results[matched];
        outcome := Found(request.callbackId, result.symbol, result.exchange,
                         ConIdOf(symbolToConId, result.symbol, result.exchange));
      } else {
        outcome := NotFound(request.callbackId, request.symbol, request.expectedExchange);
      }
    }
  }

  /** Once a search is answered it is no longer pending, so a second answer is ignored. */
  lemma AnsweredOnce(pending: map<int, SearchRequest>, reqId: int, results: seq<SearchResult>,
                     symbolToConId: map<string, int>, results2: seq<SearchResult>, symbolToConId2: map<string, int>)
    ensures var (rest, _) := SearchAnswered(pending, reqId, results, symbolToConId);
      SearchAnswered(rest, reqId, results2, symbolToConId2) == (rest, Ignored)
  {
  }

  /**
   * A search registered with an expected exchange and answered with a result
   * that matches it, ignoring case, is reported found to the caller with the
   * first such result, and leaves the pending table as it was before.
   */
  lemma SearchThenMatch(pending: map<int, SearchRequest>, nextReqId: int, symbol: string, exchange: string,
                        callbackId: int, results: seq<SearchResult>, symbolToConId: map<string, int>, k: nat)
    requires IdsBelow(pending, nextReqId) && exchange != ""
    requires k < |results| && Upper(results[k].symbol) == Upper(symbol) && Upper(results[k].exchange) == Upper(exchange)
    ensures var request := SearchRequest(Upper(symbol), Upper(exchange), callbackId);
      var (rest, outcome) := SearchAnswered(pending[nextReqId := request], nextReqId, results, symbolToConId);
      rest == pending && outcome.Found? && outcome.callbackId == callbackId
      && Upper(outcome.symbol) == Upper(symbol) && Upper(outcome.exchange) == Upper(exchange)
  {
    var request := SearchRequest(Upper(symbol), Upper(exchange), callbackId);
    assert Upper(exchange) != "" by { assert |Upper(exchange)| == |exchange|; }
    assert Matches(results[k], request);
    assert nextReqId !in pending;
    assert pending[nextReqId := request] - {nextReqId} == pending;
  }

  /**
   * What the caller stores for a found symbol (`setExpectedExchange`, then
   * `setContractId`): the exchange becomes the expected one, and a positive
   * contract id is what `getContractId` answers for the symbol on that exchange.
   */
  lemma FoundIsRecorded(c: Contracts, symbol: string, exchange: string, conId: int)
    requires exchange != ""
    ensures var c2 := ContractIdSet(ExpectedExchangeSet(c, symbol, exchange), symbol, exchange, conId);
      symbol in c2.symbolToExchange && c2.symbolToExchange[symbol] == exchange
      && (conId > 0 ==> ContractIdOf(c2, symbol, exchange) == conId)
      && (conId <= 0 ==> ContractIdOf(c2, symbol, exchange) == ContractIdOf(c, symbol, exchange))
  {
    ContractIdStored(ExpectedExchangeSet(c, symbol, exchange), symbol, exchange, conId);
  }
}
