/**
 * The extension's content script: it classifies intercepted watch-list API
 * calls into messages for the background worker, and it forwards the chart's
 * ticker once the page is ready and chart-token events have settled.
 *
 * The regular expressions of the classifier are written out as string tests.
 */
module Content {
  import opened Wrappers
  import opened Text
  import opened Json

  // ---------------------------------------------------------------- URL tests

  const CustomPrefix := "/api/v1/symbols_list/custom/"
  const ColoredPrefix := "/api/v1/symbols_list/colored/"
  const ActivePrefix := "/api/v1/symbols_list/active/"
  const AllPrefix := "/api/v1/symbols_list/all/"
  const BulkRemovePath := "/api/v1/symbols_list/colored/bulk_remove/"
  const ApiRoot := "/api/v1/symbols_list/"

  const Colors: seq<string> := ["red", "blue", "green", "orange", "purple"]

  /** The longest prefix of `s` made of decimal digits (what a greedy `\d+` takes). */
  function DigitRun(s: string): (d: string)
    ensures |d| <= |s| && d == s[..|d|] && AllDigits(d)
    ensures |d| < |s| ==> !IsDigit(s[|d|])
    decreases |s|
  {
    if |s| > 0 && IsDigit(s[0]) then [s[0]] + DigitRun(s[1..]) else ""
  }

  /**
   * `custom/(\d+)/(append|remove)/` matched at the start of `u`: the captured
   * digits as a number.
   */
  function CustomUpdateHere(u: string): Option<nat>
  {
    if !StartsWith(u, CustomPrefix) then None
    else
      var rest := u[|CustomPrefix|..];
      var digits := DigitRun(rest);
      var after := rest[|digits|..];
      if |digits| > 0 && (StartsWith(after, "/append/") || StartsWith(after, "/remove/"))
      then Some(DecimalValue(digits))
      else None
  }

  /** The leftmost match of the custom-update pattern anywhere in `url`. */
  function FindCustomUpdate(url: string): Option<nat>
    decreases |url|
  {
    if CustomUpdateHere(url).Some? then CustomUpdateHere(url)
    else if |url| == 0 then None
    else FindCustomUpdate(url[1..])
  }

  /**
   * `url.match(/\/api\/v1\/symbols_list\/colored\/(red|…)$/)`: the colour ending
   * the URL, trying the alternatives from the k-th on in their written order.
   */
  function ColoredGetColor(url: string, k: nat := 0): Option<string>
    decreases |Colors| - k
  {
    if k >= |Colors| then None
    else if EndsWith(url, ColoredPrefix + Colors[k]) then Some(Colors[k])
    else ColoredGetColor(url, k + 1)
  }

  /** The alternative of `(red|…)` that matches followed by '/' at the start of `u`, if any. */
  function ColorSegmentHere(u: string, k: nat := 0): Option<string>
    decreases |Colors| - k
  {
    if k >= |Colors| then None
    else if StartsWith(u, "/" + Colors[k] + "/") then Some(Colors[k])
    else ColorSegmentHere(u, k + 1)
  }

  predicate ContainsColorPath(url: string, before: string, after: string)
  {
    exists k :: 0 <= k < |Colors| && Contains(url, before + Colors[k] + after)
  }

  /** The colour of the leftmost `/colour/` segment of `url` (`url.match(/\/(red|…)\//)[1]`). */
  function FirstColorSegment(url: string): Option<string>
    decreases |url|
  {
    if ColorSegmentHere(url).Some? then ColorSegmentHere(url)
    else if |url| == 0 then None
    else FirstColorSegment(url[1..])
  }

  // ---------------------------------------------------------------- messages

  datatype Message =
    | CustomWishlistUpdate(wishlistId: nat, symbols: Json)
    | CustomWishlists(lists: seq<Json>)
    | ColoredWishlist(color: string, colorSymbols: Json)
    | AllWishlists(allLists: seq<Json>)
    | BulkRemove(removals: seq<Json>)

  /** `Array.isArray(data) ? data : [data]`. */
  function Wrap(data: Json): seq<Json>
  {
    if data.JArray? then data.items else [data]
  }

  /**
   * `data.symbols || []`; `None` when `data` is null or undefined, where the
   * property read throws and the listener's catch sends nothing.
   */
  function SymbolsOrEmpty(data: Json): Option<Json>
  {
    match data
    case JUndefined => None
    case JNull => None
    case JObject(fields) =>
      if "symbols" in fields && Truthy(fields["symbols"]) then Some(fields["symbols"]) else Some(JArray([]))
    case _ => Some(JArray([]))
  }

  function ColoredMessage(color: Option<string>, symbols: Option<Json>): Option<Message>
  {
    if color.Some? && symbols.Some? then Some(ColoredWishlist(color.value, symbols.value)) else None
  }

  /** The `IBKR_WISHLIST_DATA` listener: the first matching branch decides the one message, if any. */
  function Classify(url: string, data: Json): Option<Message>
  {
    if FindCustomUpdate(url).Some? then
      Some(CustomWishlistUpdate(FindCustomUpdate(url).value, data))
    else if Contains(url, CustomPrefix) then
      Some(CustomWishlists(Wrap(data)))
    else if ColoredGetColor(url).Some? then
      ColoredMessage(ColoredGetColor(url), SymbolsOrEmpty(data))
    else if ContainsColorPath(url, ActivePrefix, "/") then
      ColoredMessage(FirstColorSegment(url), SymbolsOrEmpty(data))
    else if ContainsColorPath(url, ColoredPrefix, "/append/") then
      ColoredMessage(FirstColorSegment(url), Some(data))
    else if Contains(url, AllPrefix) then
      Some(AllWishlists(Wrap(data)))
    else if Contains(url, BulkRemovePath) && data.JArray? && |data.items| > 0 then
      Some(BulkRemove(data.items))
    else None
  }

  // ---------------------------------------------------------------- properties of the classifier

  lemma {:induction false} ContainsPrefixOf(s: string, sub: string, p: string)
    requires Contains(s, sub) && StartsWith(sub, p)
    ensures Contains(s, p)
    decreases |s|
  {
    if StartsWith(s, sub) {
      assert s[..|p|] == sub[..|p|];
    } else {
      ContainsPrefixOf(s[1..], sub, p);
    }
  }

  lemma {:induction false} FindCustomUpdateContains(url: string)
    requires FindCustomUpdate(url).Some?
    ensures Contains(url, CustomPrefix)
    decreases |url|
  {
    if CustomUpdateHere(url).None? {
      FindCustomUpdateContains(url[1..]);
    }
  }

  /**
   * Every custom append/remove URL also contains the generic custom path, so the
   * order of the tests matters: such a URL yields the update message, carrying
   * the decimal id and the data unchanged, and never the generic one.
   */
  lemma CustomUpdateFirst(url: string, data: Json)
    requires FindCustomUpdate(url).Some?
    ensures Contains(url, CustomPrefix)
    ensures Classify(url, data) == Some(CustomWishlistUpdate(FindCustomUpdate(url).value, data))
  {
    FindCustomUpdateContains(url);
  }

  /** `CustomUpdateHere` read off from the pieces of a matching URL. */
  lemma CustomUpdateHereFrom(url: string, rest: string, digits: string, tail: string)
    requires StartsWith(url, CustomPrefix) && url[|CustomPrefix|..] == rest
    requires DigitRun(rest) == digits && |digits| > 0 && rest[|digits|..] == tail
    requires StartsWith(tail, "/append/") || StartsWith(tail, "/remove/")
    ensures CustomUpdateHere(url) == Some(DecimalValue(digits))
  {
  }

  /** The digits of a custom update path stop at the slash before the action. */
  lemma DigitsStopAtAction(digits: string, action: string)
    requires AllDigits(digits)
    ensures DigitRun(digits + ("/" + action + "/")) == digits
  {
    var tail := "/" + action + "/";
    assert tail[0] == '/';
    DigitRunStops(digits, tail);
  }

  /** The action part of a custom update path is one of the two the pattern accepts. */
  lemma ActionAccepted(action: string)
    requires action == "append" || action == "remove"
    ensures var tail := "/" + action + "/"; StartsWith(tail, "/append/") || StartsWith(tail, "/remove/")
  {
    if action == "append" {
      assert "/" + action + "/" == "/append/";
    } else {
      assert "/" + action + "/" == "/remove/";
    }
  }

  /** Regrouping a path of five pieces around its first piece. */
  lemma RegroupPath(a: string, b: string, c: string, d: string, e: string)
    ensures a + b + c + d + e == a + (b + (c + d + e))
  {
  }

  /** A string starts with its own front, and what follows is the rest. */
  lemma PrefixThenRest(p: string, rest: string)
    ensures StartsWith(p + rest, p) && (p + rest)[|p|..] == rest
  {
    assert (p + rest)[..|p|] == p;
  }

  /** The id read from a custom update path is the decimal number written in it. */
  lemma CustomUpdateId(id: nat, action: string, data: Json)
    requires action == "append" || action == "remove"
    ensures Classify(CustomPrefix + Decimal(id) + "/" + action + "/", data) == Some(CustomWishlistUpdate(id, data))
  {
    CustomPathFound(id, action);
    CustomUpdateFirst(CustomPrefix + Decimal(id) + "/" + action + "/", data);
  }

  /** A custom update path is matched right at its start, with the id written in it. */
  lemma CustomPathFound(id: nat, action: string)
    requires action == "append" || action == "remove"
    ensures FindCustomUpdate(CustomPrefix + Decimal(id) + "/" + action + "/") == Some(id)
  {
    var digits := Decimal(id);
    var tail := "/" + action + "/";
    var rest := digits + tail;
    var url := CustomPrefix + digits + "/" + action + "/";
    RegroupPath(CustomPrefix, digits, "/", action, "/");
    PrefixThenRest(CustomPrefix, rest);
    DigitsStopAtAction(digits, action);
    PrefixThenRest(digits, tail);
    ActionAccepted(action);
    CustomUpdateHereFrom(url, rest, digits, tail);
    DecimalRoundTrip(id);
  }

  lemma {:induction false} DigitRunStops(d: string, tail: string)
    requires AllDigits(d) && |tail| > 0 && !IsDigit(tail[0])
    ensures DigitRun(d + tail) == d
    decreases |d|
  {
    if |d| > 0 {
      assert (d + tail)[1..] == d[1..] + tail;
      DigitRunStops(d[1..], tail);
      assert [d[0]] + d[1..] == d;
    } else {
      assert d + tail == tail;
    }
  }

  /** Generic custom and "all" URLs wrap a non-array payload into a one-element array. */
  lemma WrapsNonArrays(url: string, data: Json)
    requires FindCustomUpdate(url).None?
    ensures Contains(url, CustomPrefix) ==> Classify(url, data) == Some(CustomWishlists(Wrap(data)))
    ensures !data.JArray? ==> Wrap(data) == [data]
    ensures data.JArray? ==> Wrap(data) == data.items
  {
  }

  /**
   * An "all" URL that no earlier branch claims is forwarded as every list, a
   * non-array payload wrapped into a one-element array.
   */
  lemma AllWishlistsWrap(url: string, data: Json)
    requires FindCustomUpdate(url).None? && !Contains(url, CustomPrefix)
    requires ColoredGetColor(url).None? && !ContainsColorPath(url, ActivePrefix, "/")
    requires !ContainsColorPath(url, ColoredPrefix, "/append/")
    requires Contains(url, AllPrefix)
    ensures Classify(url, data) == Some(AllWishlists(Wrap(data)))
    ensures data.JArray? ==> Classify(url, data).value.allLists == data.items
    ensures !data.JArray? ==> Classify(url, data).value.allLists == [data]
  {
  }

  /** `bulk_remove` is forwarded only as a non-empty array, and only in its own branch. */
  lemma BulkRemoveOnlyNonEmpty(url: string, data: Json, xs: seq<Json>)
    requires Classify(url, data) == Some(BulkRemove(xs))
    ensures data == JArray(xs) && |xs| > 0
    ensures Contains(url, BulkRemovePath)
  {
  }

  /** The colored branches carry `data.symbols` (or `[]`) for GET and active, and `data` for append. */
  lemma ColoredPayloads(url: string, data: Json, color: string, symbols: Json)
    requires Classify(url, data) == Some(ColoredWishlist(color, symbols))
    ensures color in Colors
    ensures ColoredGetColor(url).Some? || ContainsColorPath(url, ActivePrefix, "/") ==> SymbolsOrEmpty(data) == Some(symbols)
    ensures ColoredGetColor(url).None? && !ContainsColorPath(url, ActivePrefix, "/") ==> symbols == data
    ensures ColoredGetColor(url).Some? || ContainsColorPath(url, ActivePrefix, "/") ==>
      (data.JObject? && "symbols" in data.fields && Truthy(data.fields["symbols"]) ==> symbols == data.fields["symbols"])
  {
    assert FindCustomUpdate(url).None? && !Contains(url, CustomPrefix);
    if ColoredGetColor(url).Some? {
      ColoredGetColorIsColor(url, 0);
      assert Classify(url, data) == ColoredMessage(ColoredGetColor(url), SymbolsOrEmpty(data));
    } else {
      FirstColorSegmentIsColor(url);
      assert Classify(url, data) == ColoredMessage(FirstColorSegment(url), SymbolsOrEmpty(data))
          || Classify(url, data) == ColoredMessage(FirstColorSegment(url), Some(data));
    }
  }

  lemma {:induction false} ColoredGetColorIsColor(url: string, k: nat)
    ensures ColoredGetColor(url, k).Some? ==> ColoredGetColor(url, k).value in Colors
    decreases |Colors| - k
  {
    if k < |Colors| && !EndsWith(url, ColoredPrefix + Colors[k]) {
      ColoredGetColorIsColor(url, k + 1);
    }
  }

  lemma {:induction false} FirstColorSegmentIsColor(url: string)
    ensures FirstColorSegment(url).Some? ==> FirstColorSegment(url).value in Colors
    decreases |url|
  {
    if |url| > 0 {
      FirstColorSegmentIsColor(url[1..]);
    }
  }

  lemma {:induction false} ColoredGetColorContains(url: string, k: nat)
    requires ColoredGetColor(url, k).Some?
    ensures Contains(url, ApiRoot)
    decreases |Colors| - k
  {
    if EndsWith(url, ColoredPrefix + Colors[k]) {
      var sub := ColoredPrefix + Colors[k];
      ContainsAt(url, sub, |url| - |sub|);
      ContainsPrefixOf(url, sub, ApiRoot);
    } else {
      ColoredGetColorContains(url, k + 1);
    }
  }

  lemma ColorPathContains(url: string, before: string, after: string)
    requires ContainsColorPath(url, before, after) && StartsWith(before, ApiRoot)
    ensures Contains(url, ApiRoot)
  {
    var k :| 0 <= k < |Colors| && Contains(url, before + Colors[k] + after);
    assert (before + Colors[k] + after)[..|ApiRoot|] == before[..|ApiRoot|];
    ContainsPrefixOf(url, before + Colors[k] + after, ApiRoot);
  }

  /** A URL outside the watch-list API sends nothing. */
  lemma UnmatchedSendsNothing(url: string, data: Json)
    requires !Contains(url, ApiRoot)
    ensures Classify(url, data) == None
  {
    NoRouteOutsideApi(url);
  }

  /** Every route the classifier knows lies under the watch-list API root. */
  lemma NoRouteOutsideApi(url: string)
    requires !Contains(url, ApiRoot)
    ensures FindCustomUpdate(url).None? && !Contains(url, CustomPrefix)
    ensures ColoredGetColor(url).None?
    ensures !ContainsColorPath(url, ActivePrefix, "/") && !ContainsColorPath(url, ColoredPrefix, "/append/")
    ensures !Contains(url, AllPrefix) && !Contains(url, BulkRemovePath)
  {
    RoutesUnderApiRoot();
    if Contains(url, CustomPrefix) {
      ContainsPrefixOf(url, CustomPrefix, ApiRoot);
    }
    if FindCustomUpdate(url).Some? {
      FindCustomUpdateContains(url);
      ContainsPrefixOf(url, CustomPrefix, ApiRoot);
    }
    if ColoredGetColor(url).Some? {
      ColoredGetColorContains(url, 0);
    }
    if ContainsColorPath(url, ActivePrefix, "/") {
      ColorPathContains(url, ActivePrefix, "/");
    }
    if ContainsColorPath(url, ColoredPrefix, "/append/") {
      ColorPathContains(url, ColoredPrefix, "/append/");
    }
    if Contains(url, AllPrefix) {
      ContainsPrefixOf(url, AllPrefix, ApiRoot);
    }
    if Contains(url, BulkRemovePath) {
      ContainsPrefixOf(url, BulkRemovePath, ApiRoot);
    }
  }

  lemma RoutesUnderApiRoot()
    ensures StartsWith(CustomPrefix, ApiRoot) && StartsWith(ColoredPrefix, ApiRoot)
    ensures StartsWith(ActivePrefix, ApiRoot) && StartsWith(AllPrefix, ApiRoot)
    ensures StartsWith(BulkRemovePath, ApiRoot)
  {
  }

  // ---------------------------------------------------------------- ticker extraction

  datatype TickerData = TickerData(symbol: string, exchange: string)

  /**
   * `extractTickerInfo`: the trimmed texts of the symbol and exchange elements
   * (`None` when an element is missing or never appears); a message goes out
   * only when both are non-empty.
   */
  function ExtractTicker(symbolText: Option<string>, exchangeText: Option<string>): (r: Option<TickerData>)
    ensures r.Some? <==> symbolText.Some? && exchangeText.Some? && Trim(symbolText.value) != "" && Trim(exchangeText.value) != ""
    ensures r.Some? ==> r.value == TickerData(Trim(symbolText.value), Trim(exchangeText.value))
  {
    if symbolText.None? || exchangeText.None? then None
    else
      var symbol := Trim(symbolText.value);
      var exchange := Trim(exchangeText.value);
      if symbol != "" && exchange != "" then Some(TickerData(symbol, exchange)) else None
  }

  /** The page-ready flag and the one-second debounce timer of chart-token events. */
  class ChartGate {
    var pageReady: bool
    /** A debounce timer is pending. */
    var timerPending: bool

    constructor()
      ensures !pageReady && !timerPending
    {
      pageReady := false;
      timerPending := false;
    }

    /** The three-second start-up timer. */
    method OnPageReady()
      modifies this
      ensures pageReady && timerPending == old(timerPending)
    {
      pageReady := true;
    }

    /** `IBKR_CHART_TOKEN`: ignored before the page is ready; otherwise (re)starts the timer. */
    method OnChartToken()
      modifies this
      ensures pageReady == old(pageReady)
      ensures timerPending == (old(timerPending) || old(pageReady))
    {
      if !pageReady {
        return;
      }
      timerPending := true;
    }

    /** The debounce timer fires: at most one `TICKER_CHANGED` for any burst of chart tokens. */
    method OnTimer(symbolText: Option<string>, exchangeText: Option<string>) returns (sent: Option<TickerData>)
      modifies this
      ensures !timerPending && pageReady == old(pageReady)
      ensures sent == if old(timerPending) then ExtractTicker(symbolText, exchangeText) else None
    {
      if !timerPending {
        return None;
      }
      timerPending := false;
      sent := ExtractTicker(symbolText, exchangeText);
    }
  }
}
