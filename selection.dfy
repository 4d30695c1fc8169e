/**
 * The selection rules of the extension's background worker: which exchanges,
 * custom watch-list names and colours the user allowed, and the set of
 * `EXCHANGE:SYMBOL` keys a watch-list snapshot asks the desktop application to keep.
 *
 * The exchange rule is exact membership in the comma-separated allow-list,
 * compared after trimming and upper-casing; there is no substring matching and
 * no exchange-name translation.
 */
module Selection {
  import opened Wrappers
  import opened Text
  import opened Seqs

  /** The user's settings as kept in extension storage. */
  datatype Settings = Settings(
    webhookUrl: string,
    exchanges: string,        // comma-separated allow-list, blank = every exchange
    customWishlists: string,  // comma-separated custom list names
    coloredWishlists: seq<string>)

  const DefaultSettings := Settings("http://127.0.0.1:8496", "", "", [])

  /** One watch-list of a snapshot; `kind` is "custom" or "colored" in practice. */
  datatype Wishlist = Wishlist(kind: string, name: Option<string>, color: Option<string>, symbols: seq<string>)

  /** JavaScript truthiness of a string that may be missing. */
  predicate Present(v: Option<string>)
  {
    v.Some? && v.value != ""
  }

  function TrimUpperAll(parts: seq<string>): seq<string>
  {
    seq(|parts|, k requires 0 <= k < |parts| => Upper(Trim(parts[k])))
  }

  function TrimLowerAll(parts: seq<string>): seq<string>
  {
    seq(|parts|, k requires 0 <= k < |parts| => Lower(Trim(parts[k])))
  }

  // ---------------------------------------------------------------- filters

  predicate MatchesExchange(settings: Settings, exchange: string)
  {
    IsBlank(settings.exchanges)
    || Upper(exchange) in TrimUpperAll(SplitOn(settings.exchanges, ","))
  }

  predicate MatchesCustomName(settings: Settings, name: Option<string>)
  {
    Present(name)
    && !IsBlank(settings.customWishlists)
    && Lower(name.value) in TrimLowerAll(SplitOn(settings.customWishlists, ","))
  }

  predicate MatchesColor(settings: Settings, color: Option<string>)
  {
    Present(color) && color.value in settings.coloredWishlists
  }

  predicate MatchesWishlist(settings: Settings, wishlist: Wishlist)
  {
    if wishlist.kind == "custom" then MatchesCustomName(settings, wishlist.name)
    else if wishlist.kind == "colored" then MatchesColor(settings, wishlist.color)
    else false
  }

  /**
   * The exchange filter: a blank setting accepts everything; otherwise an
   * exchange is accepted exactly when some comma-separated entry, trimmed, equals
   * it up to letter case.
   */
  lemma ExchangeFilter(settings: Settings, exchange: string)
    ensures MatchesExchange(settings, exchange) <==>
      (forall i :: 0 <= i < |settings.exchanges| ==> IsSpace(settings.exchanges[i]))
      || exists e :: e in SplitOn(settings.exchanges, ",") && Upper(Trim(e)) == Upper(exchange)
  {
    BlankIffAllSpace(settings.exchanges);
    var parts := SplitOn(settings.exchanges, ",");
    if Upper(exchange) in TrimUpperAll(parts) {
      var k :| 0 <= k < |parts| && TrimUpperAll(parts)[k] == Upper(exchange);
      assert parts[k] in parts;
    }
    if exists e :: e in parts && Upper(Trim(e)) == Upper(exchange) {
      var e :| e in parts && Upper(Trim(e)) == Upper(exchange);
      var k :| 0 <= k < |parts| && parts[k] == e;
      assert TrimUpperAll(parts)[k] == Upper(exchange);
    }
  }

  lemma UpperLower(s: string)
    ensures Upper(Lower(s)) == Upper(s)
  {
    assert forall i :: 0 <= i < |s| ==> UpperChar(LowerChar(s[i])) == UpperChar(s[i]);
  }

  /** Letter case of the tested exchange never matters. */
  lemma ExchangeCaseInsensitive(settings: Settings, exchange: string)
    ensures MatchesExchange(settings, Lower(exchange)) == MatchesExchange(settings, exchange)
    ensures MatchesExchange(settings, Upper(exchange)) == MatchesExchange(settings, exchange)
  {
    UpperLower(exchange);
    assert Upper(Upper(exchange)) == Upper(exchange) by {
      assert forall i :: 0 <= i < |exchange| ==> UpperChar(UpperChar(exchange[i])) == UpperChar(exchange[i]);
    }
  }

  /** A prefix of an allowed exchange is not an allowed exchange: "NAS" is not "NASDAQ". */
  lemma ExchangeNoSubstringMatch()
    ensures !MatchesExchange(Settings("", "NASDAQ", "", []), "NAS")
    ensures MatchesExchange(Settings("", "NASDAQ", "", []), "nasdaq")
  {
    NasdaqAllowList();
    assert |Upper("NAS")| == 3;
    UpperNasdaq();
  }

  lemma NasdaqAllowList()
    ensures !IsBlank("NASDAQ") && TrimUpperAll(SplitOn("NASDAQ", ",")) == [Upper("NASDAQ")]
  {
    var s := "NASDAQ";
    SplitNoSeparator(s, ',');
    assert SplitOn(s, ",") == [s];
    TrimNasdaq();
    assert TrimUpperAll([s]) == [Upper(s)];
  }

  lemma TrimNasdaq()
    ensures Trim("NASDAQ") == "NASDAQ" && !IsBlank("NASDAQ")
  {
    var s := "NASDAQ";
    assert !IsSpace(s[0]) && !IsSpace(s[|s| - 1]);
    assert TrimStart(s) == s;
    assert TrimEnd(s) == s;
  }

  lemma UpperNasdaq()
    ensures Upper("nasdaq") == Upper("NASDAQ")
  {
  }

  /**
   * The custom-name filter rejects a missing or empty name and a blank setting;
   * otherwise the lower-cased name must equal some trimmed, lower-cased entry.
   */
  lemma CustomNameFilter(settings: Settings, name: string)
    ensures !MatchesCustomName(settings, None)
    ensures !MatchesCustomName(settings, Some(""))
    ensures MatchesCustomName(settings, Some(name)) <==>
      name != "" && (exists i :: 0 <= i < |settings.customWishlists| && !IsSpace(settings.customWishlists[i]))
      && exists e :: e in SplitOn(settings.customWishlists, ",") && Lower(Trim(e)) == Lower(name)
  {
    BlankIffAllSpace(settings.customWishlists);
    var parts := SplitOn(settings.customWishlists, ",");
    if Lower(name) in TrimLowerAll(parts) {
      var k :| 0 <= k < |parts| && TrimLowerAll(parts)[k] == Lower(name);
      assert parts[k] in parts;
    }
    if exists e :: e in parts && Lower(Trim(e)) == Lower(name) {
      var e :| e in parts && Lower(Trim(e)) == Lower(name);
      var k :| 0 <= k < |parts| && parts[k] == e;
      assert TrimLowerAll(parts)[k] == Lower(name);
    }
  }

  // ---------------------------------------------------------------- watch-list symbols

  /**
   * `const [exchange, symbol] = s.split(':')`: the text before the first colon
   * and the part after it, which is missing when there is no colon.
   */
  datatype WatchTicker = WatchTicker(exchange: string, symbol: Option<string>)

  function ParseWatchSymbol(s: string): WatchTicker
  {
    var parts := SplitOn(s, ":");
    WatchTicker(parts[0], if |parts| > 1 then Some(parts[1]) else None)
  }

  /** The template literal `${exchange}:${symbol}`, where a missing symbol prints as "undefined". */
  function WatchKey(t: WatchTicker): string
  {
    t.exchange + ":" + (if t.symbol.Some? then t.symbol.value else "undefined")
  }

  /** A well-formed `EXCHANGE:SYMBOL` entry reads back as its two halves and keeps its key. */
  lemma WatchSymbolRoundTrip(exchange: string, symbol: string)
    requires ':' !in exchange && ':' !in symbol
    ensures ParseWatchSymbol(exchange + ":" + symbol) == WatchTicker(exchange, Some(symbol))
    ensures WatchKey(ParseWatchSymbol(exchange + ":" + symbol)) == exchange + ":" + symbol
  {
    SplitAtFirst(exchange, ":", symbol);
    SplitNoSeparator(symbol, ':');
  }

  /** The keys of the symbols whose exchange the settings allow. */
  function SelectedKeys(settings: Settings, symbols: seq<string>): set<string>
    decreases |symbols|
  {
    if |symbols| == 0 then {}
    else
      var t := ParseWatchSymbol(symbols[|symbols| - 1]);
      SelectedKeys(settings, symbols[..|symbols| - 1])
        + (if MatchesExchange(settings, t.exchange) then {WatchKey(t)} else {})
  }

  predicate SelectsSymbol(settings: Settings, s: string, key: string)
  {
    MatchesExchange(settings, ParseWatchSymbol(s).exchange) && WatchKey(ParseWatchSymbol(s)) == key
  }

  lemma SelectedKeysMember(settings: Settings, symbols: seq<string>, key: string)
    ensures key in SelectedKeys(settings, symbols) <==>
      exists j :: 0 <= j < |symbols| && SelectsSymbol(settings, symbols[j], key)
  {
    if key in SelectedKeys(settings, symbols) {
      SelectedKeyHasSymbol(settings, symbols, key);
    }
    if exists j :: 0 <= j < |symbols| && SelectsSymbol(settings, symbols[j], key) {
      var j :| 0 <= j < |symbols| && SelectsSymbol(settings, symbols[j], key);
      SymbolGivesSelectedKey(settings, symbols, j, key);
    }
  }

  lemma {:induction false} SelectedKeyHasSymbol(settings: Settings, symbols: seq<string>, key: string)
    requires key in SelectedKeys(settings, symbols)
    ensures exists j :: 0 <= j < |symbols| && SelectsSymbol(settings, symbols[j], key)
    decreases |symbols|
  {
    var init := symbols[..|symbols| - 1];
    SelectedKeysSnoc(settings, symbols, key);
    if key in SelectedKeys(settings, init) {
      SelectedKeyHasSymbol(settings, init, key);
      var j :| 0 <= j < |init| && SelectsSymbol(settings, init[j], key);
      assert symbols[j] == init[j];
    } else {
      assert SelectsSymbol(settings, symbols[|symbols| - 1], key);
    }
  }

  lemma {:induction false} SymbolGivesSelectedKey(settings: Settings, symbols: seq<string>, j: nat, key: string)
    requires j < |symbols| && SelectsSymbol(settings, symbols[j], key)
    ensures key in SelectedKeys(settings, symbols)
    decreases |symbols|
  {
    var init := symbols[..|symbols| - 1];
    SelectedKeysSnoc(settings, symbols, key);
    if j < |init| {
      assert init[j] == symbols[j];
      SymbolGivesSelectedKey(settings, init, j, key);
    }
  }

  lemma SelectedKeysSnoc(settings: Settings, symbols: seq<string>, key: string)
    requires |symbols| > 0
    ensures key in SelectedKeys(settings, symbols) <==>
      key in SelectedKeys(settings, symbols[..|symbols| - 1]) || SelectsSymbol(settings, symbols[|symbols| - 1], key)
  {
  }

  /** The symbols of several watch-lists, one list after the other. */
  function AllSymbols(lists: seq<Wishlist>): seq<string>
    decreases |lists|
  {
    if |lists| == 0 then [] else AllSymbols(lists[..|lists| - 1]) + lists[|lists| - 1].symbols
  }

  lemma {:induction false} AllSymbolsMember(lists: seq<Wishlist>, s: string)
    ensures s in AllSymbols(lists) <==> exists i :: 0 <= i < |lists| && s in lists[i].symbols
    decreases |lists|
  {
    if |lists| > 0 {
      var init := lists[..|lists| - 1];
      AllSymbolsMember(init, s);
      if exists i :: 0 <= i < |init| && s in init[i].symbols {
        var i :| 0 <= i < |init| && s in init[i].symbols;
        assert lists[i] == init[i];
      }
      if exists i :: 0 <= i < |lists| && s in lists[i].symbols {
        var i :| 0 <= i < |lists| && s in lists[i].symbols;
        if i < |init| {
          assert init[i] == lists[i];
        }
      }
    }
  }

  // ---------------------------------------------------------------- desired set

  /** A `SYNC_WISHLISTS` payload: `lists` is read for type "all", `coloredSymbols` for "colored". */
  datatype SyncData = SyncData(kind: string, lists: seq<Wishlist>, coloredSymbols: seq<string>, color: Option<string>)

  function MatchingLists(settings: Settings, lists: seq<Wishlist>): seq<Wishlist>
  {
    Filter(lists, WishlistTest(settings))
  }

  function WishlistTest(settings: Settings): Wishlist -> bool
  {
    wl => MatchesWishlist(settings, wl)
  }

  /** The keys the snapshot asks to keep (`tvTickerSet`). */
  function DesiredKeys(settings: Settings, data: SyncData): set<string>
  {
    if data.kind == "all" then
      SelectedKeys(settings, AllSymbols(MatchingLists(settings, data.lists)))
    else if data.kind == "colored" then
      if MatchesWishlist(settings, Wishlist("colored", None, data.color, [])) then
        SelectedKeys(settings, data.coloredSymbols)
      else {}
    else {}
  }

  /**
   * For type "all" the desired set is the union, over the watch-lists the
   * filters accept, of the keys of their symbols whose exchange is allowed.
   */
  lemma DesiredAll(settings: Settings, data: SyncData, key: string)
    requires data.kind == "all"
    ensures key in DesiredKeys(settings, data) <==>
      exists i, j :: 0 <= i < |data.lists| && MatchesWishlist(settings, data.lists[i])
        && 0 <= j < |data.lists[i].symbols| && SelectsSymbol(settings, data.lists[i].symbols[j], key)
  {
    SelectedKeysMember(settings, AllSymbols(MatchingLists(settings, data.lists)), key);
    if key in DesiredKeys(settings, data) {
      DesiredAllFromList(settings, data.lists, key);
    }
    if exists i, j :: 0 <= i < |data.lists| && MatchesWishlist(settings, data.lists[i])
        && 0 <= j < |data.lists[i].symbols| && SelectsSymbol(settings, data.lists[i].symbols[j], key) {
      var i, j :| 0 <= i < |data.lists| && MatchesWishlist(settings, data.lists[i])
        && 0 <= j < |data.lists[i].symbols| && SelectsSymbol(settings, data.lists[i].symbols[j], key);
      DesiredAllToList(settings, data.lists, i, j, key);
    }
  }

  lemma DesiredAllFromList(settings: Settings, lists: seq<Wishlist>, key: string)
    requires exists j ::
               0 <= j < |AllSymbols(MatchingLists(settings, lists))|
               && SelectsSymbol(settings, AllSymbols(MatchingLists(settings, lists))[j], key)
    ensures exists i, j ::
              0 <= i < |lists| && MatchesWishlist(settings, lists[i])
              && 0 <= j < |lists[i].symbols| && SelectsSymbol(settings, lists[i].symbols[j], key)
  {
    var matching := MatchingLists(settings, lists);
    var symbols := AllSymbols(matching);
    var j :| 0 <= j < |symbols| && SelectsSymbol(settings, symbols[j], key);
    AllSymbolsMember(matching, symbols[j]);
    var m :| 0 <= m < |matching| && symbols[j] in matching[m].symbols;
    FilterMember(lists, WishlistTest(settings), matching[m]);
    var i :| 0 <= i < |lists| && lists[i] == matching[m];
    var j' :| 0 <= j' < |lists[i].symbols| && lists[i].symbols[j'] == symbols[j];
  }

  lemma DesiredAllToList(settings: Settings, lists: seq<Wishlist>, i: nat, j: nat, key: string)
    requires i < |lists| && MatchesWishlist(settings, lists[i])
    requires j < |lists[i].symbols| && SelectsSymbol(settings, lists[i].symbols[j], key)
    ensures exists k ::
              0 <= k < |AllSymbols(MatchingLists(settings, lists))|
              && SelectsSymbol(settings, AllSymbols(MatchingLists(settings, lists))[k], key)
  {
    var matching := MatchingLists(settings, lists);
    FilterMember(lists, WishlistTest(settings), lists[i]);
    var m :| 0 <= m < |matching| && matching[m] == lists[i];
    AllSymbolsMember(matching, lists[i].symbols[j]);
    var symbols := AllSymbols(matching);
    var k :| 0 <= k < |symbols| && symbols[k] == lists[i].symbols[j];
  }

  /**
   * For type "colored" the desired set is empty unless the colour is allowed, and
   * then holds the allowed-exchange keys of the list; every other type desires nothing.
   */
  lemma DesiredColoredOrOther(settings: Settings, data: SyncData, key: string)
    requires data.kind != "all"
    ensures key in DesiredKeys(settings, data) <==>
      data.kind == "colored" && MatchesColor(settings, data.color)
      && exists j :: 0 <= j < |data.coloredSymbols| && SelectsSymbol(settings, data.coloredSymbols[j], key)
  {
    SelectedKeysMember(settings, data.coloredSymbols, key);
  }
}
