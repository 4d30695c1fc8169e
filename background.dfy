/**
 * The extension's background worker: it forwards the chart's ticker to the
 * desktop application's local endpoint and deletes from the application every
 * ticker the current watch-list snapshot no longer selects.
 *
 * Every HTTP exchange is an input: `Outcome` is either a response with its
 * status (and, for the listing GET, the decoded ticker array) or a network
 * error carrying the clock reading taken when it was caught. The i-th DELETE a
 * handler issues receives `net(i)`. `chrome.storage.local` is the pair of fields
 * `activeTicker`/`lastSync`; every request goes to `<webhookUrl>/ticker`.
 */
module Background {
  import opened Wrappers
  import opened Seqs
  import opened Selection

  /** A ticker as the application lists it. */
  datatype AppTicker = AppTicker(symbol: string, exchange: string)

  function AppKey(t: AppTicker): string
  {
    t.exchange + ":" + t.symbol
  }

  datatype Outcome = Response(status: int, tickers: seq<AppTicker>) | NetworkError(at: int)

  /** `response.ok`: a status in 200..299. */
  predicate Ok(o: Outcome)
  {
    o.Response? && 200 <= o.status < 300
  }

  predicate HasStatus(o: Outcome, status: int)
  {
    o.Response? && o.status == status
  }

  datatype Request =
    | GetTickers
    | PutTicker(symbol: string, exchange: string)
    | PostTicker(symbol: string, exchange: string)
    | DeleteTicker(deleteSymbol: Option<string>, deleteExchange: string)

  // ---------------------------------------------------------------- connection tracker

  /** `isConnected` and `lastConnectionError`. */
  datatype Conn = Conn(connected: bool, errorSince: Option<int>)

  predicate ConnValid(c: Conn)
  {
    c.connected <==> c.errorSince.None?
  }

  /** The effect of one call on the tracker: it only changes on an edge. */
  function Track(c: Conn, o: Outcome): Conn
  {
    match o
    case Response(_, _) => if !c.connected then Conn(true, None) else c
    case NetworkError(at) => if c.connected then Conn(false, Some(at)) else c
  }

  /** The tracker after a sequence of calls, the last one last. */
  function TrackAll(c: Conn, os: seq<Outcome>): Conn
    decreases |os|
  {
    if |os| == 0 then c else Track(TrackAll(c, os[..|os| - 1]), os[|os| - 1])
  }

  lemma TrackAllSnoc(c: Conn, os: seq<Outcome>, o: Outcome)
    ensures TrackAll(c, os + [o]) == Track(TrackAll(c, os), o)
  {
    assert (os + [o])[..|os|] == os;
  }

  /** Calls made one batch after another track like one sequence of calls. */
  lemma {:induction false} TrackAllAppend(c: Conn, xs: seq<Outcome>, ys: seq<Outcome>)
    ensures TrackAll(c, xs + ys) == TrackAll(TrackAll(c, xs), ys)
    decreases |ys|
  {
    if |ys| == 0 {
      assert xs + ys == xs;
    } else {
      var init := ys[..|ys| - 1];
      assert (xs + ys)[..|xs + ys| - 1] == xs + init;
      TrackAllAppend(c, xs, init);
    }
  }

  /** The tracker is connected exactly when it holds no error time, whatever happens. */
  lemma {:induction false} TrackAllValid(c: Conn, os: seq<Outcome>)
    requires ConnValid(c)
    ensures ConnValid(TrackAll(c, os))
    decreases |os|
  {
    if |os| > 0 {
      TrackAllValid(c, os[..|os| - 1]);
    }
  }

  /** After at least one call the tracker is connected exactly when the last call got a response. */
  lemma TrackAllLast(c: Conn, os: seq<Outcome>)
    requires |os| > 0
    ensures TrackAll(c, os).connected <==> os[|os| - 1].Response?
    ensures ConnValid(c) && os[|os| - 1].Response? ==> TrackAll(c, os) == Conn(true, None)
  {
    if ConnValid(c) {
      TrackAllValid(c, os[..|os| - 1]);
    }
  }

  /**
   * Edge triggering: in a run of failures that starts right after a response (or
   * on a connected tracker), the recorded error time is that of the run's first
   * failure; later failures do not move it.
   */
  lemma {:induction false} TrackAllFirstFailure(c: Conn, os: seq<Outcome>, k: nat)
    requires k < |os|
    requires forall i :: k <= i < |os| ==> os[i].NetworkError?
    requires (k == 0 && c.connected) || (k > 0 && os[k - 1].Response?)
    ensures TrackAll(c, os) == Conn(false, Some(os[k].at))
    decreases |os|
  {
    var init := os[..|os| - 1];
    if |os| - 1 == k {
      if k > 0 {
        assert init[k - 1] == os[k - 1];
        assert TrackAll(c, init).connected;
      }
    } else {
      TrackAllFirstFailure(c, init, k);
    }
  }

  // ---------------------------------------------------------------- specification of the handlers

  /** `handleTickerChange` writes the active ticker when PUT is ok, or when PUT is 404 and POST is ok. */
  predicate Selected(put: Outcome, post: Outcome)
  {
    if HasStatus(put, 404) then Ok(post) else Ok(put)
  }

  function TickerChangeRequests(symbol: string, exchange: string, put: Outcome): seq<Request>
  {
    [PutTicker(symbol, exchange)] + (if HasStatus(put, 404) then [PostTicker(symbol, exchange)] else [])
  }

  function TickerChangeOutcomes(put: Outcome, post: Outcome): seq<Outcome>
  {
    [put] + (if HasStatus(put, 404) then [post] else [])
  }

  /** The ticker is selected only on an ok response, and never after a network error on PUT. */
  lemma SelectedOnlyOnSuccess(put: Outcome, post: Outcome)
    ensures Selected(put, post) ==> Ok(put) || (HasStatus(put, 404) && Ok(post))
    ensures put.NetworkError? ==> !Selected(put, post)
    ensures Ok(put) ==> Selected(put, post)
  {
  }

  /** An app ticker is a delete target when it is neither the stored active ticker nor desired. */
  predicate Doomed(desired: set<string>, active: Option<string>, t: AppTicker)
  {
    Some(AppKey(t)) != active && AppKey(t) !in desired
  }

  function DoomedTest(desired: set<string>, active: Option<string>): AppTicker -> bool
  {
    t => Doomed(desired, active, t)
  }

  function SweepTargets(apps: seq<AppTicker>, desired: set<string>, active: Option<string>): seq<AppTicker>
  {
    Filter(apps, DoomedTest(desired, active))
  }

  lemma SweepTargetsSnoc(apps: seq<AppTicker>, app: AppTicker, desired: set<string>, active: Option<string>)
    ensures SweepTargets(apps + [app], desired, active) ==
      SweepTargets(apps, desired, active) + (if Doomed(desired, active, app) then [app] else [])
  {
    FilterSnoc(apps, app, DoomedTest(desired, active));
  }

  /**
   * The sweep deletes each app ticker occurrence that is neither active nor
   * desired exactly once, and nothing else.
   */
  lemma SweepTargetsExact(apps: seq<AppTicker>, desired: set<string>, active: Option<string>, t: AppTicker)
    ensures multiset(SweepTargets(apps, desired, active))[t] ==
      if Some(AppKey(t)) != active && AppKey(t) !in desired then multiset(apps)[t] else 0
  {
    FilterCount(apps, DoomedTest(desired, active), t);
  }

  function SweepRequests(targets: seq<AppTicker>): seq<Request>
  {
    seq(|targets|, i requires 0 <= i < |targets| => DeleteTicker(Some(targets[i].symbol), targets[i].exchange))
  }

  function AppKeys(targets: seq<AppTicker>): seq<string>
  {
    seq(|targets|, i requires 0 <= i < |targets| => AppKey(targets[i]))
  }

  /** The first `n` answers of the network. */
  function Answers(net: nat -> Outcome, n: nat): seq<Outcome>
  {
    seq(n, i requires 0 <= i < n => net(i))
  }

  /** The keys whose DELETE (the i-th one for the i-th key) answered 204, in order. */
  function RemovedKeys(keys: seq<string>, net: nat -> Outcome): seq<string>
    decreases |keys|
  {
    if |keys| == 0 then []
    else RemovedKeys(keys[..|keys| - 1], net) + (if HasStatus(net(|keys| - 1), 204) then [keys[|keys| - 1]] else [])
  }

  /** A key counts as removed only when its own DELETE answered 204. */
  lemma {:induction false} RemovedOnly204(keys: seq<string>, net: nat -> Outcome, k: string)
    ensures k in RemovedKeys(keys, net) ==> exists i :: 0 <= i < |keys| && keys[i] == k && HasStatus(net(i), 204)
    ensures (exists i :: 0 <= i < |keys| && keys[i] == k && HasStatus(net(i), 204)) ==> k in RemovedKeys(keys, net)
    decreases |keys|
  {
    if |keys| > 0 {
      var init := keys[..|keys| - 1];
      RemovedOnly204(init, net, k);
      if exists i :: 0 <= i < |keys| && keys[i] == k && HasStatus(net(i), 204) {
        var i :| 0 <= i < |keys| && keys[i] == k && HasStatus(net(i), 204);
        if i < |init| {
          assert init[i] == k;
        }
      }
    }
  }

  lemma RemovedKeysSnoc(keys: seq<string>, key: string, net: nat -> Outcome)
    ensures RemovedKeys(keys + [key], net) ==
      RemovedKeys(keys, net) + (if HasStatus(net(|keys|), 204) then [key] else [])
  {
    assert (keys + [key])[..|keys|] == keys;
  }

  /** One more delete target extends the requests, the keys and the answers by one each. */
  lemma SweepStep(before: seq<AppTicker>, app: AppTicker, net: nat -> Outcome)
    ensures AppKeys(before + [app]) == AppKeys(before) + [AppKey(app)]
    ensures SweepRequests(before + [app]) == SweepRequests(before) + [DeleteTicker(Some(app.symbol), app.exchange)]
    ensures Answers(net, |before| + 1) == Answers(net, |before|) + [net(|before|)]
    ensures RemovedKeys(AppKeys(before + [app]), net) ==
      RemovedKeys(AppKeys(before), net) + (if HasStatus(net(|before|), 204) then [AppKey(app)] else [])
  {
    assert AppKeys(before + [app]) == AppKeys(before) + [AppKey(app)];
    RemovedKeysSnoc(AppKeys(before), AppKey(app), net);
  }

  /** Bulk removal skips only the entries whose key is the active ticker. */
  function BulkTargets(symbols: seq<string>, active: Option<string>): seq<WatchTicker>
    decreases |symbols|
  {
    if |symbols| == 0 then []
    else
      var t := ParseWatchSymbol(symbols[|symbols| - 1]);
      BulkTargets(symbols[..|symbols| - 1], active) + (if Some(WatchKey(t)) != active then [t] else [])
  }

  /** One DELETE per listed entry except those naming the active ticker. */
  lemma {:induction false} BulkTargetsExact(symbols: seq<string>, active: Option<string>)
    ensures |BulkTargets(symbols, active)| == |symbols| - |Filter(symbols, NamesActive(active))|
    decreases |symbols|
  {
    if |symbols| > 0 {
      BulkTargetsExact(symbols[..|symbols| - 1], active);
      BulkTargetsCountStep(symbols, active);
      FilterCountStep(symbols, NamesActive(active));
    }
  }

  lemma BulkTargetsCountStep(symbols: seq<string>, active: Option<string>)
    requires |symbols| > 0
    ensures |BulkTargets(symbols, active)| ==
      |BulkTargets(symbols[..|symbols| - 1], active)| + (if NamesActive(active)(symbols[|symbols| - 1]) then 0 else 1)
  {
  }

  /** Whether a listed entry is deleted: it does not name the active ticker. */
  function NotActive(active: Option<string>): string -> bool
  {
    s => !NamesActive(active)(s)
  }

  function ParsedAll(symbols: seq<string>): seq<WatchTicker>
  {
    seq(|symbols|, i requires 0 <= i < |symbols| => ParseWatchSymbol(symbols[i]))
  }

  /** The DELETEs go out for the listed entries that do not name the active ticker, in list order. */
  lemma {:induction false} BulkTargetsInOrder(symbols: seq<string>, active: Option<string>)
    ensures BulkTargets(symbols, active) == ParsedAll(Filter(symbols, NotActive(active)))
    decreases |symbols|
  {
    if |symbols| > 0 {
      var init := symbols[..|symbols| - 1];
      var last := symbols[|symbols| - 1];
      BulkTargetsInOrder(init, active);
      BulkTargetsLast(symbols, active);
      assert symbols == init + [last];
      FilterSnoc(init, last, NotActive(active));
      if NotActive(active)(last) {
        ParsedAllSnoc(Filter(init, NotActive(active)), last);
      }
    }
  }

  lemma BulkTargetsLast(symbols: seq<string>, active: Option<string>)
    requires |symbols| > 0
    ensures var last := symbols[|symbols| - 1];
      BulkTargets(symbols, active) ==
        BulkTargets(symbols[..|symbols| - 1], active) + (if NotActive(active)(last) then [ParseWatchSymbol(last)] else [])
  {
    var last := symbols[|symbols| - 1];
    assert NotActive(active)(last) == !NamesActive(active)(last);
  }

  lemma ParsedAllSnoc(xs: seq<string>, x: string)
    ensures ParsedAll(xs + [x]) == ParsedAll(xs) + [ParseWatchSymbol(x)]
  {
  }

  /** No DELETE names the active ticker. */
  lemma {:induction false} BulkTargetsSkipActive(symbols: seq<string>, active: Option<string>)
    ensures forall t :: t in BulkTargets(symbols, active) ==> Some(WatchKey(t)) != active
    decreases |symbols|
  {
    if |symbols| > 0 {
      BulkTargetsSkipActive(symbols[..|symbols| - 1], active);
    }
  }

  /** Whether a listed entry names the active ticker. */
  function NamesActive(active: Option<string>): string -> bool
  {
    s => Some(WatchKey(ParseWatchSymbol(s))) == active
  }

  lemma BulkTargetsSnoc(symbols: seq<string>, i: nat, active: Option<string>)
    requires i < |symbols|
    ensures var t := ParseWatchSymbol(symbols[i]);
      BulkTargets(symbols[..i + 1], active) == BulkTargets(symbols[..i], active) + (if Some(WatchKey(t)) != active then [t] else [])
  {
    assert symbols[..i + 1][..i] == symbols[..i];
  }

  function BulkRequests(targets: seq<WatchTicker>): seq<Request>
  {
    seq(|targets|, i requires 0 <= i < |targets| => DeleteTicker(targets[i].symbol, targets[i].exchange))
  }

  function WatchKeys(targets: seq<WatchTicker>): seq<string>
  {
    seq(|targets|, i requires 0 <= i < |targets| => WatchKey(targets[i]))
  }

  lemma BulkStep(before: seq<WatchTicker>, t: WatchTicker, net: nat -> Outcome)
    ensures WatchKeys(before + [t]) == WatchKeys(before) + [WatchKey(t)]
    ensures BulkRequests(before + [t]) == BulkRequests(before) + [DeleteTicker(t.symbol, t.exchange)]
    ensures Answers(net, |before| + 1) == Answers(net, |before|) + [net(|before|)]
    ensures RemovedKeys(WatchKeys(before + [t]), net) ==
      RemovedKeys(WatchKeys(before), net) + (if HasStatus(net(|before|), 204) then [WatchKey(t)] else [])
  {
    assert WatchKeys(before + [t]) == WatchKeys(before) + [WatchKey(t)];
    RemovedKeysSnoc(WatchKeys(before), WatchKey(t), net);
  }

  // ---------------------------------------------------------------- the worker

  class Worker {
    var settings: Settings
    var isConnected: bool
    var lastConnectionError: Option<int>
    var activeTicker: Option<string>
    var lastSync: Option<int>
    /** Every request issued so far, in order. */
    var sent: seq<Request>

    function Connection(): Conn
      reads this
    {
      Conn(isConnected, lastConnectionError)
    }

    predicate Valid()
      reads this
    {
      ConnValid(Connection())
    }

    constructor()
      ensures settings == DefaultSettings
      ensures isConnected && lastConnectionError == None && Valid()
      ensures activeTicker == None && lastSync == None && sent == []
    {
      settings := DefaultSettings;
      isConnected := true;
      lastConnectionError := None;
      activeTicker := None;
      lastSync := None;
      sent := [];
    }

    /** `SETTINGS_UPDATED`: the stored settings replace the current ones. */
    method LoadSettings(stored: Settings)
      requires Valid()
      modifies this
      ensures Valid()
      ensures settings == stored
      ensures Connection() == old(Connection()) && sent == old(sent)
      ensures activeTicker == old(activeTicker) && lastSync == old(lastSync)
    {
      settings := stored;
    }

    /** `fetchWithConnectionTracking`: issues the request and passes its outcome on unchanged. */
    method Fetch(req: Request, outcome: Outcome) returns (r: Outcome)
      requires Valid()
      modifies this
      ensures Valid()
      ensures r == outcome
      ensures sent == old(sent) + [req]
      ensures Connection() == Track(old(Connection()), outcome)
      ensures settings == old(settings) && activeTicker == old(activeTicker) && lastSync == old(lastSync)
    {
      sent := sent + [req];
      match outcome {
        case Response(_, _) =>
          if !isConnected {
            isConnected := true;
            lastConnectionError := None;
          }
        case NetworkError(at) =>
          if isConnected {
            isConnected := false;
            lastConnectionError := Some(at);
          }
      }
      r := outcome;
    }

    /** `handleTickerChange`: PUT, then POST only on 404; persist the ticker on success. */
    method HandleTickerChange(symbol: string, exchange: string, put: Outcome, post: Outcome, now: int)
      requires Valid()
      modifies this
      ensures Valid()
      ensures sent == old(sent) + TickerChangeRequests(symbol, exchange, put)
      ensures Connection() == TrackAll(old(Connection()), TickerChangeOutcomes(put, post))
      ensures activeTicker == if Selected(put, post) then Some(exchange + ":" + symbol) else old(activeTicker)
      ensures lastSync == if Selected(put, post) then Some(now) else old(lastSync)
      ensures settings == old(settings)
    {
      ghost var start := Connection();
      TrackAllSnoc(start, [], put);
      assert [] + [put] == [put];
      var putResponse := Fetch(PutTicker(symbol, exchange), put);
      if HasStatus(putResponse, 404) {
        TrackAllSnoc(start, [put], post);
        assert [put] + [post] == [put, post];
        var postResponse := Fetch(PostTicker(symbol, exchange), post);
        if Ok(postResponse) {
          activeTicker := Some(exchange + ":" + symbol);
          lastSync := Some(now);
        }
      } else if Ok(putResponse) {
        activeTicker := Some(exchange + ":" + symbol);
        lastSync := Some(now);
      }
    }

    /**
     * `handleWishlistSync`: list the application's tickers and, only when that
     * answered ok, delete every one the snapshot does not select, except the
     * active one.
     */
    method HandleWishlistSync(data: SyncData, get: Outcome, net: nat -> Outcome) returns (removed: seq<string>)
      requires Valid()
      modifies this
      ensures Valid()
      ensures var targets := SweepTargets(if Ok(get) then get.tickers else [], DesiredKeys(old(settings), data), old(activeTicker));
        && sent == old(sent) + [GetTickers] + SweepRequests(targets)
        && removed == RemovedKeys(AppKeys(targets), net)
        && Connection() == TrackAll(old(Connection()), [get] + Answers(net, |targets|))
      ensures settings == old(settings) && activeTicker == old(activeTicker) && lastSync == old(lastSync)
    {
      var desired := DesiredKeys(settings, data);
      var active := activeTicker;
      ghost var start := Connection();
      var response := Fetch(GetTickers, get);
      TrackAllSnoc(start, [], get);
      assert [] + [get] == [get];
      if !Ok(response) {
        assert Answers(net, 0) == [] && SweepRequests([]) == [] && AppKeys([]) == [];
        assert [get] + [] == [get];
        return [];
      }
      ghost var mid := sent;
      removed := Sweep(response.tickers, desired, active, net);
      ghost var targets := SweepTargets(get.tickers, desired, active);
      TrackAllAppend(start, [get], Answers(net, |targets|));
      assert sent == mid + SweepRequests(targets);
    }

    /** The loop of `handleWishlistSync` over the application's tickers. */
    method Sweep(apps: seq<AppTicker>, desired: set<string>, active: Option<string>, net: nat -> Outcome)
      returns (removed: seq<string>)
      requires Valid()
      modifies this
      ensures Valid()
      ensures var targets := SweepTargets(apps, desired, active);
        && sent == old(sent) + SweepRequests(targets)
        && removed == RemovedKeys(AppKeys(targets), net)
        && Connection() == TrackAll(old(Connection()), Answers(net, |targets|))
      ensures settings == old(settings) && activeTicker == old(activeTicker) && lastSync == old(lastSync)
    {
      ghost var base := sent;
      ghost var start := Connection();
      assert Answers(net, 0) == [];
      assert apps[..0] == [];
      removed := [];
      var i := 0;
      var n := 0;
      while i < |apps|
        invariant 0 <= i <= |apps|
        invariant SweepProgress(base, start, apps[..i], desired, active, net, removed, n)
        invariant Valid()
        invariant settings == old(settings) && activeTicker == old(activeTicker) && lastSync == old(lastSync)
      {
        removed, n := SweepEntry(apps, i, desired, active, net, base, start, removed, n);
        i := i + 1;
      }
      assert apps[..|apps|] == apps;
    }

    /** The requests, the removed keys and the tracker after the sweep's DELETEs for the app tickers in `prefix`. */
    ghost predicate SweepProgress(base: seq<Request>, start: Conn, prefix: seq<AppTicker>, desired: set<string>,
                                  active: Option<string>, net: nat -> Outcome, removed: seq<string>, n: nat)
      reads this
    {
      var targets := SweepTargets(prefix, desired, active);
      n == |targets| && sent == base + SweepRequests(targets)
      && removed == RemovedKeys(AppKeys(targets), net)
      && Connection() == TrackAll(start, Answers(net, n))
    }

    /** One app ticker of the sweep: a DELETE when it is neither active nor desired. */
    method SweepEntry(apps: seq<AppTicker>, i: nat, desired: set<string>, active: Option<string>, net: nat -> Outcome,
                      ghost base: seq<Request>, ghost start: Conn, removed: seq<string>, n: nat)
      returns (removedAfter: seq<string>, nAfter: nat)
      requires i < |apps|
      requires SweepProgress(base, start, apps[..i], desired, active, net, removed, n)
      requires Valid()
      modifies this
      ensures Valid()
      ensures SweepProgress(base, start, apps[..i + 1], desired, active, net, removedAfter, nAfter)
      ensures settings == old(settings) && activeTicker == old(activeTicker) && lastSync == old(lastSync)
    {
      ghost var targets := SweepTargets(apps[..i], desired, active);
      var app := apps[i];
      var key := AppKey(app);
      assert apps[..i + 1] == apps[..i] + [app];
      SweepTargetsSnoc(apps[..i], app, desired, active);
      removedAfter, nAfter := removed, n;
      if Some(key) != active && key !in desired {
        SweepStep(targets, app, net);
        TrackAllSnoc(start, Answers(net, n), net(n));
        removedAfter := DeleteStep(DeleteTicker(Some(app.symbol), app.exchange), key, removed, net(n));
        nAfter := n + 1;
      } else {
        assert SweepTargets(apps[..i + 1], desired, active) == targets + [] == targets;
      }
    }

    /** One DELETE of a sweep: it goes out with its answer, and a 204 records the key as removed. */
    method DeleteStep(req: Request, key: string, removed: seq<string>, answer: Outcome)
      returns (removedAfter: seq<string>)
      requires Valid()
      modifies this
      ensures Valid()
      ensures sent == old(sent) + [req]
      ensures Connection() == Track(old(Connection()), answer)
      ensures removedAfter == removed + (if HasStatus(answer, 204) then [key] else [])
      ensures settings == old(settings) && activeTicker == old(activeTicker) && lastSync == old(lastSync)
    {
      var r := Fetch(req, answer);
      removedAfter := removed;
      if HasStatus(r, 204) {
        removedAfter := removed + [key];
      }
    }

    /** `handleBulkRemove`: delete every listed `EXCHANGE:SYMBOL` except the active ticker. */
    method HandleBulkRemove(symbols: seq<string>, net: nat -> Outcome) returns (removed: seq<string>)
      requires Valid()
      modifies this
      ensures Valid()
      ensures var targets := BulkTargets(symbols, old(activeTicker));
        && sent == old(sent) + BulkRequests(targets)
        && removed == RemovedKeys(WatchKeys(targets), net)
        && Connection() == TrackAll(old(Connection()), Answers(net, |targets|))
      ensures settings == old(settings) && activeTicker == old(activeTicker) && lastSync == old(lastSync)
    {
      var active := activeTicker;
      ghost var base := sent;
      ghost var start := Connection();
      removed := [];
      var i := 0;
      var n := 0;
      assert Answers(net, 0) == [];
      assert symbols[..0] == [];
      while i < |symbols|
        invariant 0 <= i <= |symbols|
        invariant BulkProgress(base, start, symbols[..i], active, net, removed, n)
        invariant Valid()
        invariant settings == old(settings) && activeTicker == old(activeTicker) && lastSync == old(lastSync)
      {
        removed, n := BulkRemoveEntry(symbols, i, active, net, base, start, removed, n);
        i := i + 1;
      }
      assert symbols[..|symbols|] == symbols;
    }

    /** The requests, the removed keys and the tracker after the DELETEs for the listed `prefix`. */
    ghost predicate BulkProgress(base: seq<Request>, start: Conn, prefix: seq<string>, active: Option<string>,
                                 net: nat -> Outcome, removed: seq<string>, n: nat)
      reads this
    {
      var targets := BulkTargets(prefix, active);
      n == |targets| && sent == base + BulkRequests(targets)
      && removed == RemovedKeys(WatchKeys(targets), net)
      && Connection() == TrackAll(start, Answers(net, n))
    }

    /** One listed entry of a bulk removal: a DELETE unless it names the active ticker. */
    method BulkRemoveEntry(symbols: seq<string>, i: nat, active: Option<string>, net: nat -> Outcome,
                           ghost base: seq<Request>, ghost start: Conn, removed: seq<string>, n: nat)
      returns (removedAfter: seq<string>, nAfter: nat)
      requires i < |symbols|
      requires BulkProgress(base, start, symbols[..i], active, net, removed, n)
      requires Valid()
      modifies this
      ensures Valid()
      ensures BulkProgress(base, start, symbols[..i + 1], active, net, removedAfter, nAfter)
      ensures settings == old(settings) && activeTicker == old(activeTicker) && lastSync == old(lastSync)
    {
      ghost var targets := BulkTargets(symbols[..i], active);
      var t := ParseWatchSymbol(symbols[i]);
      var key := WatchKey(t);
      BulkTargetsSnoc(symbols, i, active);
      removedAfter, nAfter := removed, n;
      if Some(key) != active {
        BulkStep(targets, t, net);
        TrackAllSnoc(start, Answers(net, n), net(n));
        removedAfter := DeleteStep(DeleteTicker(t.symbol, t.exchange), key, removed, net(n));
        nAfter := n + 1;
      } else {
        assert BulkTargets(symbols[..i + 1], active) == targets + [] == targets;
      }
    }
  }
}
