# IBKR Hotkey Trader, modelled in Dafny

A model of the core of IBKR Hotkey Trader. The project has two parts.

The Chrome extension runs on the TradingView chart page:

- the content script (`Content`) sorts intercepted watch-list API calls into messages and forwards the chart's ticker once the page has settled;
- the background worker (`Background`) forwards that ticker to the desktop application's `/ticker` endpoint, and deletes from the application every ticker the current watch-list snapshot no longer selects;
- the selection rules of the background worker are in `Selection`: allowed exchanges, custom list names and colours.

The Qt desktop application trades through Interactive Brokers' TWS. The modelled parts are:

- the remote-control HTTP server (`HttpMessages`, `RemoteControl`);
- the ticker data manager with its bar caches and 5-second bar aggregation (`TickerKeys`, `TickerData`);
- the symbol search manager (`SymbolSearch`) and the TWS display-group sync (`DisplayGroup`);
- the TWS client and its callback wrapper (`IbkrClient`, `IbkrWrapper`);
- orders and the trading manager (`Order`, `Trading`);
- the application log and the debug-log dialog (`Logger`, `DebugLog`);
- the ticker list, the order panel and the order history widgets (`TickerList`, `OrderPanel`, `OrderHistory`);
- the main window's decisions (`MainWindow`).

Shared string and sequence helpers are in `Text` and `Seqs`. JSON values are in `Json`, and the `Option` type is in `Wrappers`.

Objects whose fields the source updates in place are classes. Each of their methods is specified against the fields' old values. The pure decisions are functions, with lemmas that state their properties: iff-characterisations, round trips, preserved invariants, and "nothing else changes".

Where the documented design and the code differ, the model follows the code:

- the exchange allow-list is exact membership after trimming and upper-casing; there is no substring match and no exchange-name translation;
- the background worker keeps no reference counts and no id index: a ticker is deleted when the current snapshot no longer selects it;
- `onOrderStatusUpdated` reads the position of the current symbol, not the order's symbol, as the code does.

## Model

| member | source | states |
|---|---|---|
| Selection.ExchangeFilter | chrome-extension/background.js:286-291 | a blank exchange setting accepts every exchange; otherwise an exchange is accepted exactly when some comma-separated entry, trimmed, equals it up to letter case |
| Selection.ExchangeCaseInsensitive | chrome-extension/background.js:289-290 | the letter case of the tested exchange never changes the verdict |
| Selection.ExchangeNoSubstringMatch | chrome-extension/background.js:289-290 | membership is exact: with the allow-list "NASDAQ", "NAS" is rejected while "nasdaq" is accepted |
| Selection.CustomNameFilter | chrome-extension/background.js:271-277 | a missing or empty name and a blank setting are rejected; otherwise the lower-cased name must equal some trimmed, lower-cased entry |
| Selection.WatchSymbolRoundTrip | chrome-extension/background.js:155-171 | an `EXCHANGE:SYMBOL` entry without further colons splits back into its exchange and symbol and rebuilds the same key |
| Selection.SelectedKeysMember | chrome-extension/background.js:155-171 | a key is selected from a symbol list exactly when some entry has an allowed exchange and that key |
| Selection.SelectedKeyHasSymbol | chrome-extension/background.js:155-165 | every selected key comes from some entry of the list with an allowed exchange |
| Selection.SymbolGivesSelectedKey | chrome-extension/background.js:155-165 | every entry with an allowed exchange contributes its key |
| Selection.AllSymbolsMember | chrome-extension/background.js:155-160 | a symbol is among the concatenated symbols exactly when some watch-list holds it |
| Selection.DesiredAll | chrome-extension/background.js:149-165 | for type "all" a key is desired exactly when some watch-list the name or colour filter accepts holds an entry with an allowed exchange and that key |
| Selection.DesiredAllFromList | chrome-extension/background.js:149-165 | a desired key of type "all" comes from an accepted watch-list |
| Selection.DesiredAllToList | chrome-extension/background.js:149-165 | an allowed entry of an accepted watch-list is desired |
| Selection.DesiredColoredOrOther | chrome-extension/background.js:166-173 | for type "colored" a key is desired exactly when the colour is allowed and some entry of the list with an allowed exchange has it; every other type desires nothing |
| Background.TrackAllValid | chrome-extension/background.js:74-97 | whatever the outcomes, the tracker is connected exactly when it holds no error time |
| Background.TrackAllLast | chrome-extension/background.js:78-93 | after at least one call the tracker is connected exactly when the last call got a response of any status, and from a consistent tracker a final response leaves it connected with no error time |
| Background.TrackAllFirstFailure | chrome-extension/background.js:86-95 | in a run of network errors after a response, the recorded error time is that of the first failure; later failures do not move it |
| Background.TrackAllAppend | chrome-extension/background.js:74-97 | calls made in two batches leave the tracker as one sequence of calls would |
| Background.SelectedOnlyOnSuccess | chrome-extension/background.js:105-140 | the ticker is persisted only after an ok PUT or a 404 PUT followed by an ok POST; a network error on PUT never persists it; an ok PUT always does |
| Background.SweepTargetsExact | chrome-extension/background.js:188-195 | each app ticker gets exactly one DELETE per occurrence when it is neither the active ticker nor desired, and none otherwise |
| Background.RemovedOnly204 | chrome-extension/background.js:203-207 | a key counts as removed exactly when its own DELETE answered 204 |
| Background.BulkTargetsExact | chrome-extension/background.js:231-236 | bulk removal issues one DELETE per listed entry except the entries naming the active ticker |
| Background.BulkTargetsInOrder | chrome-extension/background.js:231-236 | the bulk DELETEs are the listed entries that do not name the active ticker, parsed, in list order |
| Background.BulkTargetsSkipActive | chrome-extension/background.js:233-236 | no bulk DELETE names the active ticker |
| Background.Worker.constructor | chrome-extension/background.js:3-12 | the default settings, connected, no error time, nothing stored |
| Background.Worker.LoadSettings | chrome-extension/background.js:18-31 | the stored settings replace the current ones and nothing else changes; the tracker stays consistent (connected exactly when no error time is held) |
| Background.Worker.Fetch | chrome-extension/background.js:74-97 | the request goes out, its outcome is passed on unchanged, and the tracker moves only on an edge; the tracker stays consistent (connected exactly when no error time is held) |
| Background.Worker.HandleTickerChange | chrome-extension/background.js:100-141 | PUT goes out, POST only after a 404; the active ticker and sync time are written exactly on success; the tracker follows both calls; the tracker stays consistent (connected exactly when no error time is held) |
| Background.Worker.HandleWishlistSync | chrome-extension/background.js:144-220 | one GET, then, only when it answered ok, one DELETE per sweep target in order; the removed keys are those answered 204; the tracker follows every call; the tracker stays consistent (connected exactly when no error time is held) |
| Background.Worker.Sweep | chrome-extension/background.js:188-212 | the sweep loop issues exactly the DELETEs of the sweep targets and collects exactly the keys answered 204; the tracker stays consistent (connected exactly when no error time is held) |
| Background.Worker.SweepEntry | chrome-extension/background.js:189-211 | one app ticker extends the sweep's requests, removed keys and tracker by its DELETE when it is a target, and by nothing otherwise; the tracker stays consistent (connected exactly when no error time is held) |
| Background.Worker.DeleteStep | chrome-extension/background.js:196-210 | one DELETE goes out with its answer; a 204 appends the key to the removed list; the tracker stays consistent (connected exactly when no error time is held) |
| Background.Worker.HandleBulkRemove | chrome-extension/background.js:223-258 | one DELETE per listed entry except the active ticker, in order; removed keys are those answered 204; the active ticker is unchanged; the tracker stays consistent (connected exactly when no error time is held) |
| Background.Worker.BulkRemoveEntry | chrome-extension/background.js:231-253 | one listed entry extends the requests, removed keys and tracker by its DELETE unless it names the active ticker; the tracker stays consistent (connected exactly when no error time is held) |
| Content.DigitRun | chrome-extension/content.js:70 | the greedy `\d+`: the longest all-digit prefix, followed by a non-digit or the end |
| Content.CustomUpdateFirst | chrome-extension/content.js:70-88 | a custom append/remove URL also contains the generic custom path, yet yields exactly the update message carrying the captured id and the data |
| Content.CustomUpdateId | chrome-extension/content.js:70-78 | the path `custom/<id>/append/` or `custom/<id>/remove/` yields one update message with the decimal id written in it |
| Content.CustomPathFound | chrome-extension/content.js:70-72 | the custom update pattern matches such a path and captures the id written in it |
| Content.WrapsNonArrays | chrome-extension/content.js:81-88 | generic custom URLs carry the data wrapped into a one-element array unless it already is an array |
| Content.BulkRemoveOnlyNonEmpty | chrome-extension/content.js:133-140 | a bulk-remove message comes only from the bulk-remove path and only for a non-empty array |
| Content.ColoredPayloads | chrome-extension/content.js:91-119 | a colored message names one of the five colours; a GET or active URL carries `data.symbols` (or `[]` when absent or falsy), every other colored URL (append) carries `data` itself |
| Content.AllWishlistsWrap | chrome-extension/content.js:121-129 | an "all" URL no earlier branch claims is forwarded as every list: the array itself, or a non-array payload wrapped into a one-element array |
| Content.UnmatchedSendsNothing | chrome-extension/content.js:65-144 | a URL outside the watch-list API sends no message |
| Content.NoRouteOutsideApi | chrome-extension/content.js:70-133 | outside the watch-list API root every branch guard of the classifier is false |
| Content.ExtractTicker | chrome-extension/content.js:147-180 | a ticker message goes out exactly when both trimmed texts are present and non-empty, and carries those texts |
| Content.ChartGate.constructor | chrome-extension/content.js:35-51 | the page is not ready and no debounce timer is pending |
| Content.ChartGate.OnPageReady | chrome-extension/content.js:36-48 | the page becomes ready; the timer is untouched |
| Content.ChartGate.OnChartToken | chrome-extension/content.js:52-62 | a chart token before the page is ready is ignored; afterwards it (re)starts the debounce timer |
| Content.ChartGate.OnTimer | chrome-extension/content.js:59-61 | a pending timer fires once, sending what `ExtractTicker` yields; without one nothing is sent |
| HttpMessages.MessageLines | src/server/remotecontrolserver.cpp:165-193 | splitting a message at CRLF gives back its start line, its header lines, the empty line and the lines of its body |
| HttpMessages.FirstEmptyLine | src/server/remotecontrolserver.cpp:183-189 | the index found is the first empty line at or after the start, and no empty line exists when none is found |
| HttpMessages.ParseRequest | src/server/remotecontrolserver.cpp:159-217 | fewer than three request-line tokens is "Invalid request line", otherwise verb and path are tokens 0 and 1; a request is invalid exactly when it carries a reason; a valid non-GET request with a body has both "symbol" and "exchange" |
| HttpMessages.ParseHttpRequest | src/server/remotecontrolserver.cpp:159-217 | the scanning parser's request is the one `ParseRequest` specifies |
| HttpMessages.ParseRequestText | src/server/remotecontrolserver.cpp:172-216 | a client's request text reads back as its verb and target; a blank body is no body; a refused body is "Invalid JSON"; a decoded object is the body when the verb is GET or it names both fields |
| HttpMessages.RequestTextLines | src/server/remotecontrolserver.cpp:165-189 | the lines of a request text: the request line splits into verb, target and version, the header lines are non-empty, then the empty line and the body lines |
| HttpMessages.ResponseBody | src/server/remotecontrolserver.cpp:230-233 | the reply body gains an "error" key exactly for a non-empty error message and keeps every other key; it is empty only for an empty body without error |
| HttpMessages.ResponseLines | src/server/remotecontrolserver.cpp:224-243 | a response splits at CRLF into the status line, the four header lines, the empty line and the payload lines |
| HttpMessages.StatusLineRoundTrip | src/server/remotecontrolserver.cpp:225 | the first response line splits at spaces into "HTTP/1.1", the decimal status code and the reason phrase |
| HttpMessages.ResponseFraming | src/server/remotecontrolserver.cpp:226-243 | the three fixed headers, then a Content-Length whose value is the payload length, the empty line, and exactly the payload after it |
| HttpMessages.EmptyResponsePayload | src/server/remotecontrolserver.cpp:235-241 | an empty body without error sends no payload and "Content-Length: 0" |
| RemoteControl.PostTicker | src/server/remotecontrolserver.cpp:252-275 | a listed symbol@exchange (upper-cased) is a 409 conflict; any other starts a search for that symbol and exchange |
| RemoteControl.PutTicker | src/server/remotecontrolserver.cpp:277-299 | 200 with a select signal exactly when symbol@exchange is listed, else 404 "No ticker found" and no signal |
| RemoteControl.DeleteTicker | src/server/remotecontrolserver.cpp:301-322 | only the symbol is checked: 204 with a delete signal exactly when it is listed, else 404 and no signal |
| RemoteControl.FirstExchange | src/server/remotecontrolserver.cpp:420-429 | the exchange of the first listed ticker with the symbol, absent exactly when the symbol is not listed |
| RemoteControl.LookupTicker | src/server/remotecontrolserver.cpp:406-446 | 200 exactly when the exact ticker (with an exchange) or the symbol (without) is listed; the body names the symbol and a listed exchange for it; otherwise 404 "Ticker not found" |
| RemoteControl.GetTickerByExchangeAndSymbol | src/server/remotecontrolserver.cpp:406-446 | the scanning handler replies what `LookupTicker` specifies |
| RemoteControl.TickerPathExchangeSymbol | src/server/remotecontrolserver.cpp:113-122 | `/ticker/a/b` names exchange `a` and symbol `b`, upper-cased |
| RemoteControl.TickerPathSymbolAtExchange | src/server/remotecontrolserver.cpp:123-129 | `/ticker/s@e` names symbol `s` and exchange `e`, upper-cased |
| RemoteControl.TickerPathBareSymbol | src/server/remotecontrolserver.cpp:130-133 | `/ticker/s` names symbol `s` with an empty exchange |
| RemoteControl.TickerPathTooManySegments | src/server/remotecontrolserver.cpp:134-138 | three or more segments are no ticker path |
| RemoteControl.Route | src/server/remotecontrolserver.cpp:84-148 | 502 without TWS before anything else, then 400 with the parser's reason; a search starts exactly for a POST of an unlisted ticker; 405 for other methods on `/ticker` and non-GET on `/ticker/...`; 404 for other paths; only PUT and DELETE emit signals; on `/ticker` GET answers the ticker list and POST, PUT and DELETE answer what `PostTicker`, `PutTicker` and `DeleteTicker` give (409 for a POST of a listed ticker); a GET on `/ticker/<path>` answers 400 "Invalid path format" for an unparsable path, otherwise `LookupTicker` of the parsed exchange and symbol |
| RemoteControl.RemoteControlServer.constructor | src/server/remotecontrolserver.cpp:12-26 | the callback counter starts at 1 with no pending callbacks |
| RemoteControl.RemoteControlServer.OnReadyRead | src/server/remotecontrolserver.cpp:74-149 | the routed reply is sent at once; a search registers the next callback id for the socket, never one already pending, and sends nothing yet |
| RemoteControl.RemoteControlServer.OnSymbolFound | src/server/remotecontrolserver.cpp:324-348 | an unknown callback id changes nothing; a known one is removed first, and a still-connected socket gets 201 and an add signal |
| RemoteControl.RemoteControlServer.OnSymbolNotFound | src/server/remotecontrolserver.cpp:350-369 | an unknown callback id changes nothing; a known one is removed first, and a still-connected socket gets 404 "No ticker found" |
| Text.JoinSplit | src/server/remotecontrolserver.cpp:193 | joining the pieces of a split with the same separator gives the text back |
| Text.DecimalRoundTrip | src/server/remotecontrolserver.cpp:238 | the decimal numeral of a natural number reads back as that number |
| TickerKeys.TickerKeyRoundTrip | src/models/tickerdatamanager.cpp:8-21 | parsing the key made from an '@'-free symbol and exchange gives both back; an empty exchange gives the bare symbol back |
| TickerKeys.TickerKeyInjective | src/models/tickerdatamanager.cpp:8-13 | different '@'-free (symbol, exchange) pairs never share a key |
| TickerKeys.TimeframeToSeconds | src/models/tickerdatamanager.cpp:51-63 | every bar length is a positive multiple of 5 seconds that divides a day |
| TickerKeys.SecondsIncreasing | src/models/tickerdatamanager.cpp:51-63 | the seconds table is strictly increasing along the timeframes, hence one-to-one |
| TickerKeys.BarSizeTableAgrees | src/models/tickerdatamanager.cpp:37-63 | for every timeframe the bar-size text names the same length as the seconds table |
| TickerKeys.LabelTableAgrees | src/models/tickerdatamanager.cpp:23-63 | for every timeframe the UI label names the same length as the seconds table |
| TickerKeys.HistoricalDuration | src/models/tickerdatamanager.cpp:531-541 | the duration is min(500 bars, one day), at most 7200 s for 10-second bars, a whole number of bars between 24 and 500 |
| TickerKeys.BucketStart | src/models/tickerdatamanager.cpp:404-405 | the truncating `(time / barSeconds) * barSeconds` is a multiple of the bar length and, for non-negative times, the start of the bar holding the time |
| TickerKeys.CppRemZero | src/models/tickerdatamanager.cpp:422 | the C++ remainder is zero exactly when the Euclidean one is |
| TickerKeys.LastSlotOfBucket | src/models/tickerdatamanager.cpp:404-424 | on the 5-second grid, `(time + 5) % barSeconds == 0` holds exactly for the last 5-second bar of its bucket |
| TickerData.AppendIfNewer | src/models/tickerdatamanager.cpp:327-331 | a historical bar is appended exactly when the list is empty or the bar is strictly newer than the last one; otherwise nothing changes; strictly increasing lists stay so |
| TickerData.WithBars | src/models/tickerdatamanager.cpp:520-529 | the completed bars are appended to one timeframe in order and every other timeframe is untouched |
| TickerData.Merge | src/models/tickerdatamanager.cpp:414-419 | a merged bar keeps the bucket's time and open, takes the new close, the maximum high, the minimum low and the summed volume |
| TickerData.AggregateFrom | src/models/tickerdatamanager.cpp:407-424 | a bar outside the running bucket completes the running bar and opens its bucket; a bar inside is merged; a closing bar completes the current bar |
| TickerData.AggregateStep | src/models/tickerdatamanager.cpp:404-424 | the running bar starts on a multiple of the bar length, holds the bar's time, and stays open exactly while `(time + 5) % barSeconds != 0` |
| TickerData.CollectReqIds | src/models/tickerdatamanager.cpp:178-195 | the collecting loop gathers exactly the request ids mapped to the key |
| TickerData.NewRecord | src/models/tickerdatamanager.cpp:136-143 | a new record takes the contract id known for the symbol, else the one known for the key, else 0, and has no bars |
| TickerData.CountContract | src/models/tickerdatamanager.cpp:573-608 | every answer is counted; a stored contract is listed only while fewer than five are listed; the list never exceeds five or the count |
| TickerData.ContractIdSet | src/models/tickerdatamanager.cpp:160-167 | a positive contract id is stored by symbol and by key; any other id changes nothing |
| TickerData.ExpectedExchangeSet | src/models/tickerdatamanager.cpp:153-158 | a non-empty exchange becomes the symbol's expected exchange; an empty one changes nothing |
| TickerData.ContractIdStored | src/models/tickerdatamanager.cpp:113-117 | a positive id set for a key is what the lookup answers; other ids leave the answer as it was |
| TickerData.Cancelled | src/models/tickerdatamanager.cpp:301-319 | when connected both subscriptions end and the real-time request id stops routing bars; when not, nothing changes |
| TickerData.TickByTickSubscribed | src/models/tickerdatamanager.cpp:266-278 | with a current key and a connection, a fresh id (never in use) routes ticks to the key; otherwise nothing changes |
| TickerData.RealTimeBarsSubscribed | src/models/tickerdatamanager.cpp:280-293 | with a current key and a connection, a fresh id (never in use) routes 5-second bars to the key; otherwise nothing changes |
| TickerData.SymbolSwitched | src/models/tickerdatamanager.cpp:237-252 | another key becomes current with no aggregation and no completed bar seen, after cancelling and re-subscribing tick-by-tick; the current key changes nothing |
| TickerData.Activated | src/models/tickerdatamanager.cpp:119-151 | a non-empty exchange is remembered; unless the key is already current, a new key gets a `NewRecord`, becomes current and is announced; existing records are untouched |
| TickerData.TimeframeLoaded | src/models/tickerdatamanager.cpp:203-217 | an unknown key does nothing; a loaded timeframe only reports the symbol; otherwise a fresh id not in use is mapped to key and timeframe and a historical request is issued |
| TickerData.TimeframeSwitched | src/models/tickerdatamanager.cpp:254-264 | a new timeframe becomes current with no aggregation running and is loaded for the current key, if any |
| TickerData.HistoricalBarAdded | src/models/tickerdatamanager.cpp:321-332 | an unknown request id is ignored; a known one appends the bar only when newer, so every bar list stays strictly increasing; other keys and timeframes are untouched |
| TickerData.HistoricalDataFinished | src/models/tickerdatamanager.cpp:334-356 | a known request id marks its timeframe loaded, reports the bare symbol and leaves both request maps |
| TickerData.TickerRemoved | src/models/tickerdatamanager.cpp:169-201 | an absent key changes nothing; otherwise the record and every request id mapped to the key go, and every other key and request id stays |
| TickerData.AggregationFinalized | src/models/tickerdatamanager.cpp:520-529 | a running aggregated bar is appended to the current key's current timeframe and the aggregation stops |
| TickerData.RealTimeBarAdded | src/models/tickerdatamanager.cpp:358-425 | a bar from an unknown request id, for another key, or repeating the last time is ignored; an accepted one is appended to the 5-second cache and aggregated |
| TickerData.RealTimeBarAggregates | src/models/tickerdatamanager.cpp:386-424 | an accepted bar leaves the current record with the bars `AggregateStep` completes appended after the 5-second bar, and the aggregation where `AggregateStep` leaves it |
| TickerData.AggregatedFollowsStep | src/models/tickerdatamanager.cpp:404-424 | the stateful aggregation appends exactly the bars `AggregateFrom` completes and ends where it ends |
| TickerData.ContractDetailsAdded | src/models/tickerdatamanager.cpp:566-618 | the answer is counted; its id is stored exactly when the expected exchange matches or, without one, when no id is known yet; the first exchange seen is remembered |
| TickerData.ContractSearchFinished | src/models/tickerdatamanager.cpp:620-639 | the request's search record is dropped and the others stay |
| TickerData.LoadFinishLoad | src/models/tickerdatamanager.cpp:203-217 | loading then finishing marks the timeframe loaded, so loading again issues no request, and the request maps are back to where they were |
| TickerData.FirstExchangeGuardsLaterAnswers | src/models/tickerdatamanager.cpp:579-617 | with nothing known for a symbol, the first answer's exchange becomes the expected one, so a later answer replaces the id exactly when it comes from that exchange |
| TickerData.TickerDataManager.constructor | src/models/tickerdatamanager.cpp:65-78 | request ids start at 2000, the timeframe is 10 seconds, nothing is current |
| TickerData.TickerDataManager.SetContractId | src/models/tickerdatamanager.cpp:160-167 | the state becomes `ContractIdSet` of the old one |
| TickerData.TickerDataManager.SetExpectedExchange | src/models/tickerdatamanager.cpp:153-158 | the state becomes `ExpectedExchangeSet` of the old one |
| TickerData.TickerDataManager.UnsubscribeFromCurrentTicker | src/models/tickerdatamanager.cpp:301-319 | the requests are cancelled and the duplicate guard reset |
| TickerData.TickerDataManager.SubscribeToTickByTick | src/models/tickerdatamanager.cpp:266-278 | the requests become `TickByTickSubscribed` of the old ones |
| TickerData.TickerDataManager.SubscribeToRealTimeBars | src/models/tickerdatamanager.cpp:280-293 | the requests become `RealTimeBarsSubscribed` of the old ones |
| TickerData.TickerDataManager.OnReconnected | src/models/tickerdatamanager.cpp:641-646 | tick-by-tick, then real-time bars, are subscribed for the current key |
| TickerData.TickerDataManager.SetCurrentSymbol | src/models/tickerdatamanager.cpp:237-252 | the state becomes `SymbolSwitched` of the old one |
| TickerData.TickerDataManager.ActivateTicker | src/models/tickerdatamanager.cpp:119-151 | the state and the announcement are those of `Activated` |
| TickerData.TickerDataManager.LoadTimeframe | src/models/tickerdatamanager.cpp:203-217 | the state and the outcome are those of `TimeframeLoaded` |
| TickerData.TickerDataManager.SetCurrentTimeframe | src/models/tickerdatamanager.cpp:254-264 | the state and the outcome are those of `TimeframeSwitched` |
| TickerData.TickerDataManager.OnHistoricalBarReceived | src/models/tickerdatamanager.cpp:321-332 | the state becomes `HistoricalBarAdded` of the old one |
| TickerData.TickerDataManager.OnHistoricalDataFinished | src/models/tickerdatamanager.cpp:334-356 | the state and the reported symbol are those of `HistoricalDataFinished` |
| TickerData.TickerDataManager.RemoveTicker | src/models/tickerdatamanager.cpp:169-201 | the collect-then-remove loops leave the state `TickerRemoved` specifies |
| TickerData.TickerDataManager.RemoveHistoricalRequests | src/models/tickerdatamanager.cpp:184-187 | the collected ids leave both historical-request maps |
| TickerData.TickerDataManager.RemoveRealTimeRequests | src/models/tickerdatamanager.cpp:196-199 | the collected ids stop routing real-time bars |
| TickerData.TickerDataManager.FinalizeAggregationBar | src/models/tickerdatamanager.cpp:520-529 | the state becomes `AggregationFinalized` of the old one |
| TickerData.TickerDataManager.AggregateRealTimeBar | src/models/tickerdatamanager.cpp:402-424 | the aggregation half of the real-time handler |
| TickerData.TickerDataManager.OnRealTimeBarReceived | src/models/tickerdatamanager.cpp:358-425 | the state becomes `RealTimeBarAdded` of the old one |
| TickerData.TickerDataManager.OnContractDetailsReceived | src/models/tickerdatamanager.cpp:566-618 | the contracts become `ContractDetailsAdded` of the old ones |
| TickerData.TickerDataManager.OnContractSearchFinished | src/models/tickerdatamanager.cpp:620-639 | the contracts become `ContractSearchFinished` of the old ones |
| TickerData.WithBar | src/models/tickerdatamanager.cpp:525-527 | one bar is appended to one timeframe and every other timeframe is untouched |
| TickerData.AggregatedAt | src/models/tickerdatamanager.cpp:404-424 | aggregating a bar touches only the current key's record and the running bar; requests, contracts and every other key stay |
| TickerData.CountKeepsBounded | src/models/tickerdatamanager.cpp:573-608 | counting an answer keeps every search's contract list within five entries and within its count |
| SymbolSearch.FirstMatch | src/models/symbolsearchmanager.cpp:74-91 | the index found is the first result whose upper-cased symbol and exchange equal the request's; none is found exactly when no result matches |
| SymbolSearch.SearchAnswered | src/models/symbolsearchmanager.cpp:48-105 | an unknown id is ignored; a known one leaves the pending table; every result is handed on exactly when the id is known and no exchange is expected; otherwise the first match is reported found with its contract id, and not-found exactly when nothing matches |
| SymbolSearch.SymbolSearchManager.constructor | src/models/symbolsearchmanager.cpp:6-14 | request ids start at 10000 with nothing pending |
| SymbolSearch.SymbolSearchManager.SearchSymbolWithExchange | src/models/symbolsearchmanager.cpp:16-30 | the search takes the next id, which no pending search holds, and waits under it upper-cased |
| SymbolSearch.SymbolSearchManager.SearchSymbolOnly | src/models/symbolsearchmanager.cpp:32-46 | as above with no expected exchange and callback id 0 |
| SymbolSearch.SymbolSearchManager.OnSymbolSearchResultsReceived | src/models/symbolsearchmanager.cpp:48-105 | the scanning loop leaves the table and the outcome `SearchAnswered` specifies |
| SymbolSearch.AnsweredOnce | src/models/symbolsearchmanager.cpp:53-58 | a second answer to the same request id is ignored |
| SymbolSearch.SearchThenMatch | src/models/symbolsearchmanager.cpp:16-99 | a search with an expected exchange answered by a matching result, ignoring case, reports it found to the caller and leaves the table as before the search |
| SymbolSearch.FoundIsRecorded | src/models/symbolsearchmanager.cpp:93-96 | after a match, the exchange is the symbol's expected one and a positive contract id is what the ticker data answers for it |
| DisplayGroup.ContractInfo | src/client/displaygroupmanager.cpp:84-100 | a positive contract id gives `<conId>@SMART`, otherwise `<symbol>@SMART` |
| DisplayGroup.ExchangeIgnored | src/client/displaygroupmanager.cpp:90-91 | the exchange never affects the contract text |
| DisplayGroup.ContractIdReadBack | src/client/displaygroupmanager.cpp:94-96 | splitting the text at '@' gives the decimal contract id, which reads back as the id, and "SMART" |
| DisplayGroup.DisplayGroupManager.constructor | src/client/displaygroupmanager.cpp:6-16 | request ids start at 20000 |
| DisplayGroup.DisplayGroupManager.UpdateActiveSymbol | src/client/displaygroupmanager.cpp:18-44 | no group or no connection does nothing; otherwise one fresh id subscribes to the group and updates it with the contract text |
| DisplayGroup.DisplayGroupManager.QueryGroups | src/client/displaygroupmanager.cpp:46-55 | a query uses one fresh id, and only when connected |
| MainWindow.ToastTypeOf | src/ui/mainwindow.cpp:860-869 | "warning" and "error" give their types; every other string gives info |
| MainWindow.SilencedExactly | src/ui/mainwindow.cpp:725-754 | the chain of early returns silences exactly the listed connection, farm-status and market-data codes |
| MainWindow.ErrorToastFor | src/ui/mainwindow.cpp:725-757 | a toast "Error <code>: <message>" of the error type is shown exactly for codes outside the silenced set |
| MainWindow.ButtonsFor | src/ui/mainwindow.cpp:871-991 | Cancel is always on; without a connection or symbol all else is off; Open needs no position, a price and a balance; Add p a position, a price, a balance and budget room; Close p a position and a share to sell |
| MainWindow.OpenExcludesAddAndClose | src/ui/mainwindow.cpp:929-975 | Open is never enabled together with any Add or Close button |
| MainWindow.HistoricalOrder | src/ui/mainwindow.cpp:418-433 | a completed order keeps id, symbol and permanent id, is a buy exactly for "BUY", filled exactly when its quantity is positive and cancelled otherwise, at its price with no commission |
| MainWindow.AfterDelete | src/ui/mainwindow.cpp:629-667 | deleting another symbol keeps the current one; deleting the current one switches to the top symbol, or clears it when the list is empty |
| MainWindow.Window.constructor | src/ui/mainwindow.cpp:44-45 | the order counter starts at 1 and the next completed-order id at -1 |
| MainWindow.Window.OnOrderConfirmed | src/ui/mainwindow.cpp:415-437 | only completed orders (id 0) are taken, each under the next negative id and sort order, so ids stay distinct from TWS ids |
| MainWindow.Window.OnSymbolDelete | src/ui/mainwindow.cpp:629-667 | the outcome is `AfterDelete`'s and the current symbol is cleared only when nothing is left |
| Order.DefaultOrder | src/models/order.h:32-44 | a new order is a pending buy of nothing at price 0, id 0, worth 0 |
| Order.Total | src/models/order.h:52-54 | the value is the fill price times the quantity once filled and the limit price times the quantity before; no quantity, no value |
| Order.ExactlyOneStatus | src/models/order.h:48-50 | exactly one of pending, filled and cancelled holds |
| Order.BuyIffNotSell | src/models/order.h:46-47 | an order is a buy exactly when it is not a sell |
| Trading.PendingQuantity | src/trading/tradingmanager.cpp:234-254 | the quantity of the order under the side's pending id when that id is non-negative, stored and still pending; 0 in every other case |
| Trading.NewOrder | src/trading/tradingmanager.cpp:443-451 | the stored order is pending, with fill price 0, commission 0, under the client's id, for the given symbol, quantity and limit price |
| Trading.Placed | src/trading/tradingmanager.cpp:453-459 | the order is stored under its id, which becomes its side's pending id; the other side and other orders are kept; a fresh id keeps pending ids valid and distinct |
| Trading.Replaced | src/trading/tradingmanager.cpp:465-477 | with no pending order on the side nothing changes; otherwise the old order is dropped and the replacement becomes the pending one, keeping pending ids valid |
| Trading.Errored | src/trading/tradingmanager.cpp:292-313 | an error for a stored positive id drops the order and clears any pending id equal to it; other errors change nothing; pending ids stay those of stored orders and stay distinct |
| Trading.StatusOf | src/trading/tradingmanager.cpp:321-327 | "Filled" and "Cancelled" give their statuses, anything else pending |
| Trading.StatusApplied | src/trading/tradingmanager.cpp:315-358 | an unknown id changes nothing; a known order takes the status and fill price, and its side's pending id clears on a fill of that side or on a cancel; pending ids stay those of stored orders and stay distinct |
| Trading.PositionsAfterStatus | src/trading/tradingmanager.cpp:331-344 | only a fill moves a position: the order's symbol is set to the current position plus a bought or minus a sold quantity, other symbols kept |
| Trading.Trunc | src/trading/tradingmanager.cpp:182 | `static_cast<int>` truncates toward zero: the result lies within one of the value, on the zero side |
| Trading.TradingManager.constructor | src/trading/tradingmanager.cpp:8-16 | no prices, no pending orders (ids -1), sell offset 0 |
| Trading.TradingManager.SetSymbol | src/trading/tradingmanager.cpp:38-56 | the same symbol changes nothing; leaving a symbol with a position is refused with a warning; otherwise the symbol switches and the sell monitor starts for a non-empty one; exchange, prices, positions, costs, the book and the sell offset are unchanged |
| Trading.TradingManager.SetSymbolExchange | src/trading/tradingmanager.cpp:58-64 | the exchange is taken only for the current symbol; nothing else changes |
| Trading.TradingManager.PlaceOrder | src/trading/tradingmanager.cpp:431-463 | a limit order is sent, DAY in regular hours and GTC outside, and the book becomes `Placed` of the old one |
| Trading.TradingManager.UpdatePendingOrder | src/trading/tradingmanager.cpp:465-477 | the pending order is cancelled and the book becomes `Replaced` of the old one |
| Trading.TradingManager.OpenPosition | src/trading/tradingmanager.cpp:66-108 | refused exactly without a symbol, with a position, or with no shares; otherwise a limit buy at the ask plus the offset (DAY in regular hours, GTC with outside-RTH otherwise) is sent, preceded by a cancel of the pending buy when there is one, and the book replaces or places it accordingly |
| Trading.TradingManager.AddToPosition | src/trading/tradingmanager.cpp:110-166 | NoSymbol, NoPosition, NoMarketData or ZeroShares for no shares, OverBudget exactly when position, pending buy and addition are worth more than the budget; accepted exactly when none applies, and then the pending buy is cancelled and re-sent with its quantity grown by the shares, or a limit buy for the shares is sent, in both cases at the ask plus the offset |
| Trading.TradingManager.ClosePosition | src/trading/tradingmanager.cpp:168-195 | sells the truncated percentage of the position at the bid minus the reset offset, cancelling a pending sell first; no symbol or no position gives its warning, and a truncated share count of zero returns silently; warned exactly in the first two cases; nothing to sell changes nothing |
| Trading.TradingManager.CancelAllOrders | src/trading/tradingmanager.cpp:197-215 | both pending orders are cancelled and cleared, the orders kept, and the sweep covers exactly the pending orders of the current symbol |
| Trading.TradingManager.OnTickByTickUpdated | src/trading/tradingmanager.cpp:256-275 | the quotes are stored; a pending buy priced below the ask is cancelled and re-sent with its quantity at the ask plus the offset; symbol, exchange, positions, costs and the sell monitor are unchanged |
| Trading.TradingManager.OnOrderConfirmed | src/trading/tradingmanager.cpp:277-290 | a confirmation of a stored order hands that order on; others hand on nothing |
| Trading.TradingManager.OnError | src/trading/tradingmanager.cpp:292-313 | the book becomes `Errored` of the old one, an error message is reported exactly for a dropped order, and a cleared pending sell resets the offset |
| Trading.TradingManager.OnOrderStatusUpdated | src/trading/tradingmanager.cpp:315-358 | the book becomes `StatusApplied`, positions `PositionsAfterStatus`, a cleared pending sell resets the offset, and the cancel and update signals follow the new status; symbol, exchange, prices, costs and the sell monitor are unchanged |
| Trading.TradingManager.CheckAndUpdateSellOrders | src/trading/tradingmanager.cpp:360-379 | when the bid is below a pending sell's price the offset doubles and the sell is cancelled and re-sent with its quantity at the bid minus the new offset; otherwise nothing changes |
| Trading.TradingManager.OnPositionUpdated | src/trading/tradingmanager.cpp:28-35 | only positions and average costs of the active account are stored and announced; the book, symbol, exchange, prices, sell offset and sell monitor are unchanged |
| Trading.PlacedThenErrored | src/trading/tradingmanager.cpp:292-313 | an error for an order just placed under a fresh positive id restores the orders and leaves no pending order on that side |
| Trading.FillMovesPosition | src/trading/tradingmanager.cpp:331-344 | a fill of a buy of the current symbol adds the filled quantity to its position, a fill of a sell subtracts it |
| Trading.StatusTextDecides | src/trading/tradingmanager.cpp:315-329 | after an update the order is filled or cancelled exactly as the status text says, at the reported fill price |
| Logger.CheckCount | src/utils/logger.cpp:14 | the scan looks at min(20, entry count) entries |
| Logger.DuplicateScan | src/utils/logger.cpp:16-33 | the scan only ever answers an index of an existing entry |
| Logger.DuplicateScanFinds | src/utils/logger.cpp:16-33 | the scan finds the newest matching entry among those looked at, with every entry from it on inside the window, or reports none when no reachable entry matches |
| Logger.DuplicateIndex | src/utils/logger.cpp:12-33 | a duplicate is the newest of the last twenty entries with the same text, reached before any entry older than the 2-second window; none exactly when no reachable entry matches |
| Logger.Logged | src/utils/logger.cpp:9-51 | a log never grows past 50000 entries, one call never shrinks it and adds at most one entry, and afterwards it is not empty |
| Logger.DuplicateBumps | src/utils/logger.cpp:26-31 | a duplicate bumps the repeat count and timestamp of the entry it repeats, keeps every other entry and the count, and reports the update at that index |
| Logger.FreshAppends | src/utils/logger.cpp:35-50 | a new message is appended last with repeat count 0, after the oldest entry is dropped from a full log, and is reported as added |
| Logger.Log.constructor | src/utils/logger.cpp:4-7 | the log starts empty |
| Logger.Log.FindDuplicate | src/utils/logger.cpp:14-33 | the backward loop finds `DuplicateIndex` |
| Logger.Log.Add | src/utils/logger.cpp:9-51 | the entries and the report become those of `Logged` |
| Logger.Log.LogDebug | src/utils/logger.cpp:53-55 | `log` at debug level |
| Logger.Log.LogInfo | src/utils/logger.cpp:57-59 | `log` at info level |
| Logger.Log.LogWarning | src/utils/logger.cpp:61-63 | `log` at warning level |
| Logger.Log.LogError | src/utils/logger.cpp:65-67 | `log` at error level |
| Logger.Log.Clear | src/utils/logger.cpp:74-77 | the log becomes empty |
| Logger.RepeatWithinWindow | src/utils/logger.cpp:16-33 | a message repeated within the window is found as the newest entry and bumped, so the count stays the same |
| Logger.StaysBounded | src/utils/logger.cpp:43-48 | any run of `log` calls keeps the log within 50000 entries |
| Logger.Replay | src/utils/logger.cpp:9-51 | a run of `log` calls adds at most one entry per call and never shrinks the log; any call leaves it non-empty |
| TickerList.NewItem | src/widgets/tickerlistwidget.cpp:49-54 | a new row shows the symbol with price 0, change 0, not current |
| TickerList.Added | src/widgets/tickerlistwidget.cpp:38-56 | a listed symbol changes nothing; a new one is inserted on top before the old rows; the symbol is listed afterwards and distinct symbols stay distinct |
| TickerList.Marked | src/widgets/tickerlistwidget.cpp:58-82 | every row is marked current exactly when it shows the symbol, and nothing else about a row changes |
| TickerList.MovedToTop | src/widgets/tickerlistwidget.cpp:107-114 | the clicked row comes first, followed by the other rows in their old order |
| TickerList.TickerListView.constructor | src/widgets/tickerlistwidget.cpp:6-36 | the list is empty and the label reads "N/A" |
| TickerList.TickerListView.AddSymbol | src/widgets/tickerlistwidget.cpp:38-56 | the search loop leaves the rows `Added` specifies, keeping symbols distinct |
| TickerList.TickerListView.SetCurrentSymbol | src/widgets/tickerlistwidget.cpp:58-82 | the marking loop leaves the rows `Marked` specifies and the symbol current |
| TickerList.TickerListView.SetTickerLabel | src/widgets/tickerlistwidget.cpp:84-87 | only the label changes |
| TickerList.TickerListView.Clear | src/widgets/tickerlistwidget.cpp:89-92 | the rows go; the current symbol and label stay |
| TickerList.TickerListView.RightClick | src/widgets/tickerlistwidget.cpp:101-127 | a right click on a row is handled; one below the top moves that row to the top |
| TickerList.MoveKeepsDistinct | src/widgets/tickerlistwidget.cpp:107-114 | moving a row to the top permutes the rows and keeps symbols distinct |
| TickerList.AtMostOneCurrent | src/widgets/tickerlistwidget.cpp:66-76 | with distinct symbols at most one row is marked current |
| TickerList.AddIdempotent | src/widgets/tickerlistwidget.cpp:38-56 | adding the same symbol twice is the same as adding it once |
| IbkrClient.ActiveAccountOf | src/client/ibkrclient.cpp:86-108 | the active account is the trimmed first non-empty comma-separated part when it is not blank, else "N/A"; never empty |
| IbkrClient.AccountEvents | src/client/ibkrclient.cpp:86-109 | the account change comes first and the account list last; account updates are requested exactly when the list names an account, and error 2104 is raised exactly when it does not |
| IbkrClient.OrderFor | src/client/ibkrclient.cpp:264-305 | the order is for the given symbol, order type and outside-RTH flag, a SMART-routed USD stock, on ISLAND unless a primary exchange is given, with the limit price only for LMT orders |
| IbkrClient.Client.constructor | src/client/ibkrclient.cpp:7-29 | disconnected, account "N/A", next order id 1, no timers running |
| IbkrClient.Client.OnApiReady | src/client/ibkrclient.cpp:42-57 | connected, the reconnect timer stopped, the order counter taken from TWS, the outage warning re-armed |
| IbkrClient.Client.OnManagedAccounts | src/client/ibkrclient.cpp:75-110 | an answer while disconnected first establishes the connection, once; the active account becomes `ActiveAccountOf` the list with `AccountEvents` reported |
| IbkrClient.Client.Connect | src/client/ibkrclient.cpp:115-137 | the endpoint is stored; an accepted socket starts the message timer, a refused one the reconnect timer |
| IbkrClient.Client.Disconnect | src/client/ibkrclient.cpp:144-176 | the socket and message timer stop and the account becomes "N/A"; a connected client reports the change and logs the outage once; the reconnect timer runs unless stopped |
| IbkrClient.Client.AttemptReconnect | src/client/ibkrclient.cpp:192-203 | only a disconnected client with a host tries to connect again |
| IbkrClient.Client.PlaceOrder | src/client/ibkrclient.cpp:264-325 | without a socket -1 is returned and nothing sent; otherwise `OrderFor` is sent under the next id and the counter advances |
| IbkrClient.FirstAccountIsActive | src/client/ibkrclient.cpp:87-91 | for "A,rest" with A non-blank and comma-free, the active account is A trimmed |
| IbkrClient.SingleAccount | src/client/ibkrclient.cpp:87-107 | a single comma-free account is taken trimmed; an empty list gives "N/A" |
| IbkrWrapper.Ticked | src/client/ibkrwrapper.cpp:36-47 | fields 4, 1 and 2 set the last, bid and ask price and their flags; other fields change nothing; a complete cache stays complete |
| IbkrWrapper.Wrapper.constructor | src/client/ibkrwrapper.cpp:7-10 | the price cache starts empty |
| IbkrWrapper.Wrapper.ConnectAck | src/client/ibkrwrapper.cpp:12-16 | the acknowledgement is reported as connected |
| IbkrWrapper.Wrapper.ConnectionClosed | src/client/ibkrwrapper.cpp:18-22 | the closed connection is reported as disconnected |
| IbkrWrapper.Wrapper.Error | src/client/ibkrwrapper.cpp:24-29 | the error id, code and message are forwarded unchanged |
| IbkrWrapper.Wrapper.TickPrice | src/client/ibkrwrapper.cpp:31-53 | the raw tick is reported first; only that ticker's cache changes, by `Ticked`; the three prices are reported exactly when the cache is complete |
| IbkrWrapper.ThreeTicksComplete | src/client/ibkrwrapper.cpp:36-51 | a last, a bid and an ask tick, in either order shown, complete the cache with those prices |
| IbkrWrapper.IncompleteWithoutAsk | src/client/ibkrwrapper.cpp:36-51 | without an ask tick no run of ticks completes the cache |
| DebugLog.LevelName | src/dialogs/debuglogdialog.cpp:295-303 | every level is shown as one of DEBUG, INFO, WARNING and ERROR |
| DebugLog.MessageText | src/dialogs/debuglogdialog.cpp:251-255 | an unrepeated entry shows its message; a repeated one appends " (repeated Nx)" with N the number of occurrences, keeping the message as prefix |
| DebugLog.RowOf | src/dialogs/debuglogdialog.cpp:237-258 | a row shows the entry's level name, source and message text |
| DebugLog.LevelDecides | src/dialogs/debuglogdialog.cpp:260-290 | an unchecked level hides an entry; with no search text the level's checkbox alone decides |
| DebugLog.SearchIgnoresCase | src/dialogs/debuglogdialog.cpp:282-290 | the search ignores letter case: an upper-cased search text shows exactly the same entries |
| DebugLog.ShownRows | src/dialogs/debuglogdialog.cpp:219-229 | the table never has more rows than the log has entries |
| DebugLog.ShownRowsAreFiltered | src/dialogs/debuglogdialog.cpp:219-229 | the rebuilt table is one row per entry that `shouldShowEntry` passes, in log order, and nothing else |
| DebugLog.RowMap | src/dialogs/debuglogdialog.cpp:216-229 | the rebuilt map's keys are exactly the messages of the table's rows |
| DebugLog.RowMapPointsAtLastRow | src/dialogs/debuglogdialog.cpp:216-229 | the rebuilt map sends every message in the table to the last row made for it |
| DebugLog.AscendingFrom | src/dialogs/debuglogdialog.cpp:342-349 | the sorted selection only holds rows of the range |
| DebugLog.DebugLogView.constructor | src/dialogs/debuglogdialog.cpp:208-235 | the dialog starts with an empty table and map under the given filter |
| DebugLog.DebugLogView.RefreshTable | src/dialogs/debuglogdialog.cpp:208-235 | the rebuilding loop leaves the shown entries' rows and their map |
| DebugLog.DebugLogView.OnFilterChanged | src/dialogs/debuglogdialog.cpp:176-189 | a changed checkbox or search text rebuilds the table and map for the new filter |
| DebugLog.DebugLogView.OnLogAdded | src/dialogs/debuglogdialog.cpp:123-139 | a shown entry gets a new last row which its message maps to; a hidden one changes nothing |
| DebugLog.DebugLogView.OnLogUpdated | src/dialogs/debuglogdialog.cpp:141-174 | only the row mapped to a shown entry's message changes, taking the new timestamp and message text; otherwise nothing changes |
| DebugLog.DebugLogView.OnClearLogs | src/dialogs/debuglogdialog.cpp:180-184 | the table and map are emptied |
| DebugLog.DebugLogView.CopySelected | src/dialogs/debuglogdialog.cpp:335-367 | nothing is copied without a selection; otherwise the selected rows' tab-joined lines in ascending order |
| DebugLog.CopyLines | src/dialogs/debuglogdialog.cpp:352-362 | the loop builds the lines of the sorted selection |
| DebugLog.CopyText | src/dialogs/debuglogdialog.cpp:352-362 | the copied text is empty exactly when no row is copied, and otherwise ends with a newline |
| DebugLog.CopyOrderIsSelection | src/dialogs/debuglogdialog.cpp:342-349 | the copy order holds exactly the selected rows, each once, strictly ascending |
| DebugLog.AscendingOnlySelected | src/dialogs/debuglogdialog.cpp:342-345 | every row in the copy order is selected |
| DebugLog.AscendingCoversSelected | src/dialogs/debuglogdialog.cpp:342-345 | every selected row in range is in the copy order |
| DebugLog.AscendingIncreases | src/dialogs/debuglogdialog.cpp:348-349 | the copy order is strictly ascending |
| DebugLog.AddedMatchesRefresh | src/dialogs/debuglogdialog.cpp:123-139 | adding an entry row by row gives the table and map a refresh over the longer log would build |
| DebugLog.RepeatSuffix | src/dialogs/debuglogdialog.cpp:252-255 | a repeated entry's text is its message followed by " (repeated N+1x)" |
| OrderPanel.PriceOf | src/widgets/orderpanel.cpp:99-107 | a shown field gives its price, a cleared one 0 |
| OrderPanel.Panel.constructor | src/widgets/orderpanel.cpp:9-87 | the saved order type is selected when it is MKT, otherwise LMT stays; fields empty, unedited, and enabled only for LMT |
| OrderPanel.Panel.UpdateResetButtonState | src/widgets/orderpanel.cpp:246-251 | "Auto" is enabled exactly while a field is user-edited |
| OrderPanel.Panel.SetBuyPrice | src/widgets/orderpanel.cpp:109-117 | a tick's price is shown unless the buy field has focus or was edited |
| OrderPanel.Panel.SetSellPrice | src/widgets/orderpanel.cpp:119-127 | the same for the sell field |
| OrderPanel.Panel.UpdatePriceFieldsState | src/widgets/orderpanel.cpp:129-140 | the fields are enabled exactly for LMT; MKT clears them |
| OrderPanel.Panel.ResetPriceFields | src/widgets/orderpanel.cpp:142-159 | both fields are cleared, unedited and unfocused, and prices 0 are announced |
| OrderPanel.Panel.OnOrderTypeChanged | src/widgets/orderpanel.cpp:183-204 | the fields follow the type, the edits are reset and the new type is announced |
| OrderPanel.Panel.SetOrderType | src/widgets/orderpanel.cpp:94-97 | only LMT or MKT, and only a change, selects a new type and runs the change handler |
| OrderPanel.Panel.SetMarketOrdersEnabled | src/widgets/orderpanel.cpp:161-181 | after disabling, LMT is selected; switching away from MKT emits the type change and re-enables the price fields, while enabling, or disabling with LMT already selected, changes nothing but the flag |
| OrderPanel.Panel.OnBuyPriceEdited | src/widgets/orderpanel.cpp:206-211 | the typed text marks the buy field edited, enables "Auto" and is sent as the buy target |
| OrderPanel.Panel.OnSellPriceEdited | src/widgets/orderpanel.cpp:213-218 | the same for the sell field |
| OrderPanel.Panel.FocusIn | src/widgets/orderpanel.cpp:230-244 | the focused field stops following the ticks and "Auto" is enabled |
| OrderPanel.Panel.FocusOut | src/widgets/orderpanel.cpp:220-244 | losing focus only drops the focus: a focused field stays user-edited, and the fields, the button and the type are unchanged |
| OrderPanel.Panel.SetOrderPanelEnabled | src/widgets/orderpanel.cpp:253-271 | enabling restores the fields for LMT, sets Reset enabled iff a price was edited and keeps the focus flags; disabling turns everything off, resets the prices and clears the focus |
| OrderHistory.RowOf | src/widgets/orderhistorywidget.cpp:325-375 | a row holds the order's id, symbol and status; the open price is a buy's fill (or limit) price and the close price a sell's |
| OrderHistory.Refreshed | src/widgets/orderhistorywidget.cpp:377-397 | the status follows the order; only a filled buy sets the open price and only a filled sell the close price |
| OrderHistory.FirstRow | src/widgets/orderhistorywidget.cpp:314-323 | the first row holding the id, or -1 exactly when no row holds it |
| OrderHistory.Keep | src/widgets/orderhistorywidget.cpp:229-264 | the kept rows are rows of the table outside the given ids |
| OrderHistory.CancelledIds | src/widgets/orderhistorywidget.cpp:239-244 | exactly the ids of the stored cancelled orders |
| OrderHistory.FindOrderRow | src/widgets/orderhistorywidget.cpp:314-323 | the search loop returns the first row holding the id, or -1 exactly when none does |
| OrderHistory.RemoveOrderRow | src/widgets/orderhistorywidget.cpp:213-223 | the first row of the id leaves the table when there is one, one row fewer |
| OrderHistory.RefreshOrderRow | src/widgets/orderhistorywidget.cpp:189-193 | the order's row in the all table is refreshed when found |
| OrderHistory.UpdateCurrentRow | src/widgets/orderhistorywidget.cpp:177-187 | the order's current row is refreshed, then removed once the order is filled or cancelled |
| OrderHistory.HideCancelled | src/widgets/orderhistorywidget.cpp:237-261 | every cancelled order is taken once, its rows leave both tables and the order leaves the map |
| OrderHistory.FillDelta | src/widgets/orderhistorywidget.cpp:469-473 | "BOT" adds the fill quantity, "SLD" subtracts it, any other side changes nothing |
| OrderHistory.FirstSymbolRow | src/widgets/orderhistorywidget.cpp:493-500 | the first row showing the symbol, or -1 exactly when it is not shown |
| OrderHistory.FindSymbolRow | src/widgets/orderhistorywidget.cpp:493-500 | the search loop returns `FirstSymbolRow` |
| OrderHistory.OrderHistoryView.constructor | src/widgets/orderhistorywidget.cpp:77-82 | no orders, rows or positions; cancelled orders and zero positions hidden |
| OrderHistory.OrderHistoryView.AddOrder | src/widgets/orderhistorywidget.cpp:162-171 | the order is stored under its id and its row appended to both tables |
| OrderHistory.OrderHistoryView.UpdateOrder | src/widgets/orderhistorywidget.cpp:173-196 | the order is replaced; its current row is refreshed or dropped once done; its all-table row is refreshed |
| OrderHistory.OrderHistoryView.RemoveOrder | src/widgets/orderhistorywidget.cpp:198-227 | an unknown id changes nothing; a shown cancelled order is only refreshed; otherwise its rows and the order go |
| OrderHistory.OrderHistoryView.SetShowCancelledAndZeroPositions | src/widgets/orderhistorywidget.cpp:229-264 | showing changes no order; hiding removes every cancelled order from the map and from both tables |
| OrderHistory.OrderHistoryView.UpdatePositionQuantityAfterFill | src/widgets/orderhistorywidget.cpp:461-476 | only the symbol's quantity in memory moves, by `FillDelta` |
| OrderHistory.OrderHistoryView.UpdatePosition | src/widgets/orderhistorywidget.cpp:478-515 | price and position are kept in memory; the table shows the symbol once, exactly when its quantity is positive or zero positions are shown |
| OrderHistory.OrderHistoryView.Clear | src/widgets/orderhistorywidget.cpp:77-82 | the three tables are emptied; orders and positions in memory stay |
| OrderHistory.PositionRowsKeepDistinct | src/widgets/orderhistorywidget.cpp:493-515 | the positions table keeps each symbol at most once and no other symbol comes or goes |
| OrderHistory.SymbolRowRemoved | src/widgets/orderhistorywidget.cpp:503-507 | removing a row of a distinct table drops exactly that symbol |
| OrderHistory.RefreshKeepsIds | src/widgets/orderhistorywidget.cpp:377-397 | a refresh keeps every row's order id |
| OrderHistory.RemoveFirstClears | src/widgets/orderhistorywidget.cpp:213-223 | with one row per id, removing an id's first row leaves no row of it and keeps ids distinct |
| OrderHistory.OrderRowRemoved | src/widgets/orderhistorywidget.cpp:184-185 | removing a row keeps ids distinct and leaves no row of that id |
| OrderHistory.FinishedLeavesCurrent | src/widgets/orderhistorywidget.cpp:182-186 | a filled or cancelled order leaves the current table |
| OrderHistory.KeepIgnoresRemoval | src/widgets/orderhistorywidget.cpp:246-258 | removing a row of a hidden id leaves the other rows as they were |
| OrderHistory.RemoveEachKeepsOthers | src/widgets/orderhistorywidget.cpp:246-261 | hiding touches no row of an order that was not hidden and keeps their order |
| OrderHistory.RemoveEachClears | src/widgets/orderhistorywidget.cpp:246-261 | with one row per id, hiding leaves no row of a hidden order |
| OrderHistory.HidingFiltersRows | src/widgets/orderhistorywidget.cpp:237-261 | hiding leaves exactly the rows of the other orders, in order, whatever order the ids were taken in |
| OrderHistory.AddedOrderFound | src/widgets/orderhistorywidget.cpp:162-168 | an added order is found at the new last row |

## Left out

- Network and browser storage: every HTTP exchange of the extension is an input outcome (status, decoded body, or a network error with its clock reading), and `chrome.storage.local` is a pair of fields.
- `injected.js`, `popup.js` and `debug-settings.js` of the extension are not part of this model (page-script hooking and the option pages).
- Sockets, the EReader thread, `processMessages` and the logger's mutex: threading and socket I/O are not modelled. Whether a socket connects, or is still connected, is a parameter.
- JSON parsing and serialisation are Qt calls and become parameters. JSON numbers are integers, and `std::stol` on bar times is taken as already applied.
- Floating point: prices are exact reals. Budget and share arithmetic takes its inputs (shares, budget, offsets) as parameters, and PnL statistics are left out.
- Clocks and timers: the trading-hours test, log timestamps and the time of the last connection error are parameters; times are integer millisecond counts. `onCandleBoundaryCheck` (timer-driven candle closing) is not modelled.
- Tick-by-tick data, dynamic bars and the mid price (`tickerdatamanager.cpp` 427-492), `requestMissingBars`, `getBars` and `isLoaded` are not modelled.
- Persistence: saving settings, the order panel's saved settings and the UI state are left out. The saved order type is a constructor parameter.
- Widget painting, cell text, sorting and row caches, the ticker list's selection highlight and auto-scrolling are left out.
- OrderHistory.OrderHistoryView.SetShowCancelledAndZeroPositions: models the order part only; the zero-position rows and the statistics are left out.
- OrderHistory.HideCancelled: takes the cancelled ids in an unspecified order, not in the QMap's ascending id order; the set taken and the rows removed are exact.
- Trading.TradingManager.CancelAllOrders: the sweep's cancellations are returned as a set of ids, not in QMap iteration order.
- `removeSymbol` and `getTopSymbol` are not in `tickerlistwidget.cpp`, so the list's top symbol after a deletion is a parameter of `MainWindow`.
- The main window's follow-up after a symbol switch (`onSymbolSelected`: loading data, subscribing, updating panels) is not modelled.
- The display-group callbacks only log, so they are not modelled.
- The client's `searchSymbol` call into TWS becomes a returned request id. A search result's description text is carried but not interpreted.
- The older copies of the sources directly under `src/` and stale headers are superseded by the files under the subdirectories, and are not modelled.
- Text case mapping and whitespace trimming cover ASCII only; there is no Unicode case folding.
- Background.Worker.HandleTickerChange, Background.Worker.HandleWishlistSync, Background.Worker.Sweep, Background.Worker.HandleBulkRemove: each handler runs as one atomic step; in the extension every `await fetch` lets another message handler run in between (for example a ticker change arriving during a sweep's DELETEs, which the sweep does not see because it read the active ticker once), and the model does not capture that interleaving.
- HttpMessages.ResponseFraming: Content-Length counts the characters of the payload; the server counts the UTF-8 bytes of the encoded payload, which differ for non-ASCII text.
- TickerData.TickerDataManager.OnHistoricalBarReceived, TickerData.TickerDataManager.OnHistoricalDataFinished: a request id with no recorded timeframe reads as `Sec5`, the enum's value 0. The header declaring `Timeframe` is not part of this model, so that value is assumed, not checked.
- The wrapper's other callbacks (`ibkrwrapper.cpp` 71-170: historical data, order status, open orders, executions, account values, portfolio, positions, contract details, managed accounts and the callbacks that only log) forward their arguments as a signal, converting `Decimal` to `double`. They are not modelled in `IbkrWrapper`: their receivers (`TickerData`, `Trading`, `IbkrClient`) take the forwarded values as parameters.
- IbkrClient.Client.OnApiReady: the four requests sent once the API is ready (managed accounts, auto-bind of manual orders, open and completed orders; `ibkrclient.cpp` 50-55) are socket calls and are not returned as events.
- Content.FindCustomUpdate: the wishlist id is the exact decimal value of its digits; `parseInt` rounds ids beyond 2^53 to the nearest double, which the model does not capture.
- Background.Worker.Sweep: a `200` answer to the ticker list carries already decoded tickers; a body that `response.json()` cannot parse throws inside the sweep's `try`, which ends the sweep with nothing deleted, and that path is not modelled.
- Trading.TradingManager.CheckAndUpdateSellOrders: the sell offset is an unbounded integer; the C++ `int` that doubles on every reprice can overflow, which the model does not capture.
