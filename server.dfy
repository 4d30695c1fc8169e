/**
 * The remote-control endpoint of the desktop application: routing of
 * `/ticker` and `/ticker/...` requests, the handlers' replies, and the table
 * of callback ids that keeps a POST's connection open until the symbol
 * search answers.
 *
 * The ticker list is an input: the listed (symbol, exchange) pairs in list
 * order. Signals to the main window and the call into the symbol search
 * are returned values; sockets are opaque ids, and whether a socket is still
 * connected is a parameter.
 */
module RemoteControl {
  import opened Wrappers
  import opened Json
  import opened Text
  import opened HttpMessages

  /** One ticker of the ticker list. */
  datatype ListedTicker = ListedTicker(symbol: string, exchange: string)

  predicate HasTickerKey(listed: seq<ListedTicker>, symbol: string, exchange: string)
  {
    ListedTicker(symbol, exchange) in listed
  }

  predicate HasSymbol(listed: seq<ListedTicker>, symbol: string)
  {
    exists k :: 0 <= k < |listed| && listed[k].symbol == symbol
  }

  /** What a handler writes back: a status with an object body and error text, or the ticker list. */
  datatype Reply =
    | Status(code: int, reason: string, body: map<string, Json>, error: string)
    | TickerList(tickers: seq<ListedTicker>)

  /** Signals emitted towards the main window. */
  datatype Signal =
    | TickerSelectRequested(symbol: string, exchange: string)
    | TickerDeleteRequested(symbol: string)
    | TickerAddRequested(addSymbol: string, addExchange: string, conId: int)

  /** The call into the symbol search that a POST starts. */
  datatype SearchCall = SearchCall(symbol: string, exchange: string, callbackId: int)

  /** A routed request: an immediate reply with its signals, or a symbol search to start. */
  datatype Routed =
    | Respond(reply: Reply, signals: seq<Signal>)
    | StartSearch(symbol: string, exchange: string)

  type SocketId = nat

  function TickerJson(t: ListedTicker): Json
  {
    JObject(map["symbol" := JString(t.symbol), "exchange" := JString(t.exchange)])
  }

  /** The text written for a reply: `sendHttpResponse`, or the array of `handleGetTicker`. */
  function Wire(reply: Reply, encode: Json -> string): string
  {
    match reply
    case Status(code, reason, body, error) => HttpResponse(code, reason, body, error, encode)
    case TickerList(tickers) =>
      ResponseText(200, "OK", encode(JArray(seq(|tickers|, k requires 0 <= k < |tickers| => TickerJson(tickers[k])))))
  }

  /** `body["key"].toString()`: the string value, or "" for a missing or non-string value. */
  function Field(body: map<string, Json>, key: string): string
  {
    if key in body && body[key].JString? then body[key].s else ""
  }

  function NotFound(error: string): Reply
  {
    Status(404, "Not Found", map[], error)
  }

  const MethodNotAllowed := Status(405, "Method Not Allowed", map[], "")

  // ---------------------------------------------------------------- handlers

  /** POST /ticker: a listed ticker is a conflict; any other starts a search. */
  function PostTicker(body: map<string, Json>, listed: seq<ListedTicker>): (r: Routed)
    ensures var symbol := Upper(Field(body, "symbol"));
      var exchange := Upper(Field(body, "exchange"));
      (r.StartSearch? <==> !HasTickerKey(listed, symbol, exchange))
      && (r.StartSearch? ==> r.symbol == symbol && r.exchange == exchange)
      && (r.Respond? ==> r == Respond(Status(409, "Conflict", map[], "Ticker already added"), []))
  {
    var symbol := Upper(Field(body, "symbol"));
    var exchange := Upper(Field(body, "exchange"));
    if HasTickerKey(listed, symbol, exchange) then
      Respond(Status(409, "Conflict", map[], "Ticker already added"), [])
    else StartSearch(symbol, exchange)
  }

  /** PUT /ticker: 200 and a select signal when the exact ticker is listed, 404 otherwise. */
  function PutTicker(body: map<string, Json>, listed: seq<ListedTicker>): (r: Routed)
    ensures r.Respond? && r.reply.Status?
    ensures var symbol := Upper(Field(body, "symbol"));
      var exchange := Upper(Field(body, "exchange"));
      (r.reply.code == 200 <==> HasTickerKey(listed, symbol, exchange))
      && (r.reply.code == 200 ==> r.signals == [TickerSelectRequested(symbol, exchange)])
      && (r.reply.code != 200 ==> r.reply == NotFound("No ticker found") && r.signals == [])
  {
    var symbol := Upper(Field(body, "symbol"));
    var exchange := Upper(Field(body, "exchange"));
    if HasTickerKey(listed, symbol, exchange) then
      Respond(Status(200, "OK", map[], ""), [TickerSelectRequested(symbol, exchange)])
    else Respond(NotFound("No ticker found"), [])
  }

  /** DELETE /ticker: only the symbol is checked; 204 and a delete signal, or 404. */
  function DeleteTicker(body: map<string, Json>, listed: seq<ListedTicker>): (r: Routed)
    ensures r.Respond? && r.reply.Status?
    ensures var symbol := Upper(Field(body, "symbol"));
      (r.reply.code == 204 <==> HasSymbol(listed, symbol))
      && (r.reply.code == 204 ==> r.signals == [TickerDeleteRequested(symbol)])
      && (r.reply.code != 204 ==> r.reply == NotFound("No ticker found") && r.signals == [])
  {
    var symbol := Upper(Field(body, "symbol"));
    if HasSymbol(listed, symbol) then
      Respond(Status(204, "No Content", map[], ""), [TickerDeleteRequested(symbol)])
    else Respond(NotFound("No ticker found"), [])
  }

  /** The exchange of the first listed ticker with this symbol. */
  function FirstExchange(listed: seq<ListedTicker>, symbol: string): (r: Option<string>)
    ensures r.None? <==> !HasSymbol(listed, symbol)
    ensures r.Some? ==> exists k :: (0 <= k < |listed| && listed[k] == ListedTicker(symbol, r.value)
                                     && forall j :: 0 <= j < k ==> listed[j].symbol != symbol)
    decreases |listed|
  {
    if |listed| == 0 then None
    else if listed[0].symbol == symbol then Some(listed[0].exchange)
    else
      var r := FirstExchange(listed[1..], symbol);
      if r.Some? then
        var k :| 0 <= k < |listed[1..]| && listed[1..][k] == ListedTicker(symbol, r.value)
          && forall j :: 0 <= j < k ==> listed[1..][j].symbol != symbol;
        assert listed[k + 1] == ListedTicker(symbol, r.value);
        r
      else r
  }

  /** The reply for GET /ticker/...: the ticker's symbol and exchange, or 404. */
  function LookupTicker(exchange: string, symbol: string, listed: seq<ListedTicker>): (r: Reply)
    ensures r.Status?
    ensures r.code == 200 <==>
      if exchange != "" then HasTickerKey(listed, symbol, exchange) else HasSymbol(listed, symbol)
    ensures r.code == 200 ==> ("exchange" in r.body && "symbol" in r.body && r.body["exchange"].JString?
                               && r.body["symbol"] == JString(symbol)
                               && HasTickerKey(listed, symbol, r.body["exchange"].s)
                               && (exchange != "" ==> r.body["exchange"] == JString(exchange)))
    ensures r.code != 200 ==> r == NotFound("Ticker not found")
  {
    var found := if exchange != "" then (if HasTickerKey(listed, symbol, exchange) then Some(exchange) else None)
                 else FirstExchange(listed, symbol);
    if found.None? then NotFound("Ticker not found")
    else Status(200, "OK", map["symbol" := JString(symbol), "exchange" := JString(found.value)], "")
  }

  /**
   * `handleGetTickerByExchangeAndSymbol`: with an exchange the exact ticker
   * must be listed; without one the first listed ticker with the symbol
   * supplies it.
   */
  method GetTickerByExchangeAndSymbol(exchange: string, symbol: string, listed: seq<ListedTicker>)
    returns (reply: Reply)
    ensures reply == LookupTicker(exchange, symbol, listed)
  {
    var requestedExchange := exchange;
    if requestedExchange != "" {
      if !HasTickerKey(listed, symbol, requestedExchange) {
        return NotFound("Ticker not found");
      }
    } else {
      var found := false;
      var i := 0;
      while i < |listed|
        invariant 0 <= i <= |listed|
        invariant !found
        invariant FirstExchange(listed, symbol) == FirstExchange(listed[i..], symbol)
        decreases |listed| - i
      {
        if listed[i].symbol == symbol {
          requestedExchange := listed[i].exchange;
          found := true;
          break;
        }
        assert listed[i..][1..] == listed[i + 1..];
        i := i + 1;
      }
      if !found {
        return NotFound("Ticker not found");
      }
    }
    reply := Status(200, "OK", map["symbol" := JString(symbol), "exchange" := JString(requestedExchange)], "");
  }

  /**
   * The path after "/ticker/": `{exchange}/{symbol}`, `{symbol}@{exchange}` or
   * a bare `{symbol}` (empty exchange), both upper-cased; more segments are
   * refused. The result is (exchange, symbol).
   */
  function TickerPath(pathPart: string): Option<(string, string)>
  {
    var parts := SplitOn(pathPart, "/");
    if |parts| == 2 then Some((Upper(parts[0]), Upper(parts[1])))
    else if |parts| == 1 then
      if '@' in parts[0] then
        var keyParts := SplitOn(parts[0], "@");
        SplitSeparated(parts[0], '@');
        Some((Upper(keyParts[1]), Upper(keyParts[0])))
      else Some(("", Upper(parts[0])))
    else None
  }

  /** `/ticker/a/b` names exchange `a` and symbol `b`, upper-cased. */
  lemma TickerPathExchangeSymbol(exchange: string, symbol: string)
    requires '/' !in exchange && '/' !in symbol
    ensures TickerPath(exchange + "/" + symbol) == Some((Upper(exchange), Upper(symbol)))
  {
    SplitAtFirst(exchange, "/", symbol);
    SplitNoSeparator(symbol, '/');
  }

  /** `/ticker/s@e` names symbol `s` and exchange `e`, upper-cased. */
  lemma TickerPathSymbolAtExchange(symbol: string, exchange: string)
    requires '/' !in symbol && '/' !in exchange && '@' !in symbol && '@' !in exchange
    ensures TickerPath(symbol + "@" + exchange) == Some((Upper(exchange), Upper(symbol)))
  {
    var key := symbol + "@" + exchange;
    assert '/' !in key;
    SplitNoSeparator(key, '/');
    assert key[|symbol|] == '@';
    SplitAtFirst(symbol, "@", exchange);
    SplitNoSeparator(exchange, '@');
  }

  /** `/ticker/s` names symbol `s` with an empty exchange. */
  lemma TickerPathBareSymbol(symbol: string)
    requires '/' !in symbol && '@' !in symbol
    ensures TickerPath(symbol) == Some(("", Upper(symbol)))
  {
    SplitNoSeparator(symbol, '/');
  }

  /** Three or more segments are not a ticker path. */
  lemma TickerPathTooManySegments(a: string, b: string, rest: string)
    requires '/' !in a && '/' !in b
    ensures TickerPath(a + "/" + b + "/" + rest) == None
  {
    assert a + "/" + b + "/" + rest == a + "/" + (b + "/" + rest);
    SplitAtFirst(a, "/", b + "/" + rest);
    SplitAtFirst(b, "/", rest);
  }

  // ---------------------------------------------------------------- routing

  /**
   * `onReadyRead`: a TWS-disconnected application answers 502 to every
   * request, before the request is even looked at; an invalid request gets 400
   * with the parser's reason; then `/ticker` is dispatched by method (others
   * get 405), `/ticker/...` answers GET only (others get 405), and any other
   * path gets 404.
   */
  function Route(request: HttpRequest, twsConnected: bool, listed: seq<ListedTicker>): (r: Routed)
    ensures !twsConnected ==> r == Respond(Status(502, "Bad Gateway", map[], "No connection with TWS"), [])
    ensures twsConnected && !request.isValid ==>
      r == Respond(Status(400, "Bad Request", map[], request.errorMessage), [])
    ensures r.StartSearch? <==>
      twsConnected && request.isValid && request.path == "/ticker" && request.verb == "POST"
      && !HasTickerKey(listed, Upper(Field(request.body, "symbol")), Upper(Field(request.body, "exchange")))
    ensures (twsConnected && request.isValid && request.path == "/ticker"
             && request.verb !in {"GET", "POST", "PUT", "DELETE"}) ==> r == Respond(MethodNotAllowed, [])
    ensures (twsConnected && request.isValid && request.path != "/ticker"
             && StartsWith(request.path, "/ticker/") && request.verb != "GET") ==> r == Respond(MethodNotAllowed, [])
    ensures (twsConnected && request.isValid && request.path != "/ticker"
             && !StartsWith(request.path, "/ticker/")) ==> r == Respond(NotFound(""), [])
    ensures r.Respond? && r.signals != [] ==>
      request.path == "/ticker" && request.verb in {"PUT", "DELETE"}
    ensures twsConnected && request.isValid && request.path == "/ticker" ==>
      (request.verb == "GET" ==> r == Respond(TickerList(listed), []))
      && (request.verb == "POST" ==> r == PostTicker(request.body, listed))
      && (request.verb == "PUT" ==> r == PutTicker(request.body, listed))
      && (request.verb == "DELETE" ==> r == DeleteTicker(request.body, listed))
    ensures twsConnected && request.isValid && request.path != "/ticker" && StartsWith(request.path, "/ticker/")
            && request.verb == "GET" ==>
      |request.path| >= 8
      && (TickerPath(request.path[8..]).None? ==> r == Respond(Status(400, "Bad Request", map[], "Invalid path format"), []))
      && (TickerPath(request.path[8..]).Some? ==>
            r == Respond(LookupTicker(TickerPath(request.path[8..]).value.0, TickerPath(request.path[8..]).value.1, listed), []))
  {
    if !twsConnected then Respond(Status(502, "Bad Gateway", map[], "No connection with TWS"), [])
    else if !request.isValid then Respond(Status(400, "Bad Request", map[], request.errorMessage), [])
    else if request.path == "/ticker" then
      if request.verb == "GET" then Respond(TickerList(listed), [])
      else if request.verb == "POST" then PostTicker(request.body, listed)
      else if request.verb == "PUT" then PutTicker(request.body, listed)
      else if request.verb == "DELETE" then DeleteTicker(request.body, listed)
      else Respond(MethodNotAllowed, [])
    else if StartsWith(request.path, "/ticker/") then
      if request.verb == "GET" then
        match TickerPath(request.path[8..])
        case None => Respond(Status(400, "Bad Request", map[], "Invalid path format"), [])
        case Some((exchange, symbol)) => Respond(LookupTicker(exchange, symbol, listed), [])
      else Respond(MethodNotAllowed, [])
    else Respond(NotFound(""), [])
  }

  // ---------------------------------------------------------------- the server

  class RemoteControlServer {
    var nextCallbackId: int
    /** Sockets of POSTs waiting for the symbol search, by callback id. */
    var callbackIdToSocket: map<int, SocketId>

    /** Every pending callback id was handed out before the counter. */
    predicate Valid()
      reads this
    {
      nextCallbackId >= 1 && forall id :: id in callbackIdToSocket ==> 1 <= id < nextCallbackId
    }

    constructor()
      ensures nextCallbackId == 1 && callbackIdToSocket == map[] && Valid()
    {
      nextCallbackId := 1;
      callbackIdToSocket := map[];
    }

    /**
     * A request arrives on `socket`: it is parsed and routed. A POST for an
     * unlisted ticker registers the next callback id for the socket and starts
     * the search without replying yet; every other request is answered at once.
     */
    method OnReadyRead(socket: SocketId, data: string, decode: string -> Option<map<string, Json>>,
                       twsConnected: bool, listed: seq<ListedTicker>)
      returns (reply: Option<Reply>, signals: seq<Signal>, search: Option<SearchCall>)
      requires Valid()
      modifies this
      ensures Valid()
      ensures var routed := Route(ParseRequest(data, decode), twsConnected, listed);
        (routed.Respond? ==>
          reply == Some(routed.reply) && signals == routed.signals && search == None
          && nextCallbackId == old(nextCallbackId) && callbackIdToSocket == old(callbackIdToSocket))
        && (routed.StartSearch? ==>
          reply == None && signals == []
          && search == Some(SearchCall(routed.symbol, routed.exchange, old(nextCallbackId)))
          && nextCallbackId == old(nextCallbackId) + 1
          && callbackIdToSocket == old(callbackIdToSocket)[old(nextCallbackId) := socket])
      ensures search.Some? ==> search.value.callbackId !in old(callbackIdToSocket)
    {
      var request := ParseHttpRequest(data, decode);
      reply, signals, search := None, [], None;
      if !twsConnected {
        reply := Some(Status(502, "Bad Gateway", map[], "No connection with TWS"));
      } else if !request.isValid {
        reply := Some(Status(400, "Bad Request", map[], request.errorMessage));
      } else if request.path == "/ticker" {
        if request.verb == "POST" {
          var routed := PostTicker(request.body, listed);
          if routed.Respond? {
            reply := Some(routed.reply);
          } else {
            var callbackId := nextCallbackId;
            nextCallbackId := nextCallbackId + 1;
            callbackIdToSocket := callbackIdToSocket[callbackId := socket];
            search := Some(SearchCall(routed.symbol, routed.exchange, callbackId));
          }
        } else if request.verb == "GET" {
          reply := Some(TickerList(listed));
        } else if request.verb == "PUT" {
          var routed := PutTicker(request.body, listed);
          reply, signals := Some(routed.reply), routed.signals;
        } else if request.verb == "DELETE" {
          var routed := DeleteTicker(request.body, listed);
          reply, signals := Some(routed.reply), routed.signals;
        } else {
          reply := Some(MethodNotAllowed);
        }
      } else if StartsWith(request.path, "/ticker/") {
        if request.verb == "GET" {
          var target := TickerPath(request.path[8..]);
          if target.None? {
            reply := Some(Status(400, "Bad Request", map[], "Invalid path format"));
          } else {
            var found := GetTickerByExchangeAndSymbol(target.value.0, target.value.1, listed);
            reply := Some(found);
          }
        } else {
          reply := Some(MethodNotAllowed);
        }
      } else {
        reply := Some(NotFound(""));
      }
    }

    /**
     * `onSymbolFound`: an unknown callback id is ignored; a known one is
     * removed, and if its socket is still connected the ticker is added and
     * the POST answered 201.
     */
    method OnSymbolFound(callbackId: int, symbol: string, exchange: string, conId: int,
                         socketConnected: SocketId -> bool)
      returns (reply: Option<(SocketId, Reply)>, signals: seq<Signal>)
      requires Valid()
      modifies this
      ensures Valid()
      ensures nextCallbackId == old(nextCallbackId)
      ensures callbackId !in callbackIdToSocket
      ensures callbackId !in old(callbackIdToSocket) ==>
        reply == None && signals == [] && callbackIdToSocket == old(callbackIdToSocket)
      ensures callbackId in old(callbackIdToSocket) ==>
        callbackIdToSocket == old(callbackIdToSocket) - {callbackId}
        && var socket := old(callbackIdToSocket)[callbackId];
        (socketConnected(socket) ==>
          reply == Some((socket, Status(201, "Created", map[], "")))
          && signals == [TickerAddRequested(symbol, exchange, conId)])
        && (!socketConnected(socket) ==> reply == None && signals == [])
    {
      reply, signals := None, [];
      if callbackId !in callbackIdToSocket {
        return;
      }
      var socket := callbackIdToSocket[callbackId];
      callbackIdToSocket := callbackIdToSocket - {callbackId};
      if !socketConnected(socket) {
        return;
      }
      signals := [TickerAddRequested(symbol, exchange, conId)];
      reply := Some((socket, Status(201, "Created", map[], "")));
    }

    /**
     * `onSymbolNotFound`: as `OnSymbolFound`, but a still-connected POST is
     * answered 404 and nothing is added.
     */
    method OnSymbolNotFound(callbackId: int, socketConnected: SocketId -> bool)
      returns (reply: Option<(SocketId, Reply)>)
      requires Valid()
      modifies this
      ensures Valid()
      ensures nextCallbackId == old(nextCallbackId)
      ensures callbackId !in callbackIdToSocket
      ensures callbackId !in old(callbackIdToSocket) ==>
        reply == None && callbackIdToSocket == old(callbackIdToSocket)
      ensures callbackId in old(callbackIdToSocket) ==>
        callbackIdToSocket == old(callbackIdToSocket) - {callbackId}
        && var socket := old(callbackIdToSocket)[callbackId];
        (socketConnected(socket) ==> reply == Some((socket, NotFound("No ticker found"))))
        && (!socketConnected(socket) ==> reply == None)
    {
      reply := None;
      if callbackId !in callbackIdToSocket {
        return;
      }
      var socket := callbackIdToSocket[callbackId];
      callbackIdToSocket := callbackIdToSocket - {callbackId};
      if socketConnected(socket) {
        reply := Some((socket, NotFound("No ticker found")));
      }
    }
  }
}
