/**
 * The ticker list of the main window: a list of symbols, newest on top, with
 * no symbol twice, a flag on the item of the current symbol, and a
 * right-click that moves an item to the top.
 */
module TickerList {

  /** One row: the symbol, its last price and change, and whether it is the current symbol. */
  datatype TickerItem = TickerItem(symbol: string, price: real, changePercent: real, isCurrent: bool)

  function NewItem(symbol: string): (it: TickerItem)
    ensures it.symbol == symbol && it.price == 0.0 && it.changePercent == 0.0 && !it.isCurrent
  {
    TickerItem(symbol, 0.0, 0.0, false)
  }

  function Symbols(items: seq<TickerItem>): (s: seq<string>)
    ensures |s| == |items| && forall i :: 0 <= i < |items| ==> s[i] == items[i].symbol
  {
    seq(|items|, i requires 0 <= i < |items| => items[i].symbol)
  }

  /** No symbol appears on two rows. */
  predicate Distinct(items: seq<TickerItem>)
  {
    forall i, j :: 0 <= i < j < |items| ==> items[i].symbol != items[j].symbol
  }

  /** `addSymbol` on the rows: a symbol already listed changes nothing, a new one goes on top. */
  function Added(items: seq<TickerItem>, symbol: string): (r: seq<TickerItem>)
    ensures symbol in Symbols(r)
    ensures symbol in Symbols(items) ==> r == items
    ensures symbol !in Symbols(items) ==> |r| == |items| + 1 && r[0] == NewItem(symbol) && r[1..] == items
    ensures Distinct(items) ==> Distinct(r)
  {
    if symbol in Symbols(items) then items
    else
      var r := [NewItem(symbol)] + items;
      assert r[1..] == items;
      assert Symbols(r)[0] == symbol;
      assert forall j :: 0 <= j < |items| ==> Symbols(items)[j] != symbol;
      r
  }

  /** The rows after `setCurrentSymbol`: a row is current exactly when it holds the symbol. */
  function Marked(items: seq<TickerItem>, symbol: string): (r: seq<TickerItem>)
    ensures |r| == |items|
    ensures forall i :: 0 <= i < |r| ==> (r[i].isCurrent <==> items[i].symbol == symbol)
    ensures forall i :: 0 <= i < |r| ==> r[i].(isCurrent := items[i].isCurrent) == items[i]
  {
    seq(|items|, i requires 0 <= i < |items| => items[i].(isCurrent := items[i].symbol == symbol))
  }

  /** The rows after a right-click on row `row` > 0: that row on top, the others in their order. */
  function MovedToTop(items: seq<TickerItem>, row: nat): (r: seq<TickerItem>)
    requires 0 < row < |items|
    ensures |r| == |items| && r[0] == items[row]
    ensures r[1..] == items[..row] + items[row + 1..]
  {
    [items[row]] + items[..row] + items[row + 1..]
  }

  class TickerListView {
    var items: seq<TickerItem>
    var currentSymbol: string
    var tickerLabel: string

    predicate Valid()
      reads this
    {
      Distinct(items)
    }

    constructor()
      ensures Valid() && items == [] && currentSymbol == "" && tickerLabel == "N/A"
    {
      items := [];
      currentSymbol := "";
      tickerLabel := "N/A";
    }

    /** `addSymbol`, with its scan for the symbol. */
    method AddSymbol(symbol: string)
      requires Valid()
      modifies this
      ensures items == Added(old(items), symbol)
      ensures Valid() && currentSymbol == old(currentSymbol) && tickerLabel == old(tickerLabel)
    {
      var i := 0;
      while i < |items|
        invariant 0 <= i <= |items|
        invariant forall j :: 0 <= j < i ==> items[j].symbol != symbol
      {
        if items[i].symbol == symbol {
          assert Symbols(items)[i] == symbol;
          return;
        }
        i := i + 1;
      }
      assert symbol !in Symbols(items);
      items := [NewItem(symbol)] + items;
    }

    /** `setCurrentSymbol`: records the symbol and flags every row by it. */
    method SetCurrentSymbol(symbol: string)
      requires Valid()
      modifies this
      ensures currentSymbol == symbol
      ensures items == Marked(old(items), symbol)
      ensures Valid() && tickerLabel == old(tickerLabel)
    {
      currentSymbol := symbol;
      var i := 0;
      while i < |items|
        invariant 0 <= i <= |items| == |old(items)|
        invariant currentSymbol == symbol && tickerLabel == old(tickerLabel)
        invariant forall j :: 0 <= j < i ==> items[j] == old(items)[j].(isCurrent := old(items)[j].symbol == symbol)
        invariant forall j :: i <= j < |items| ==> items[j] == old(items)[j]
      {
        items := items[i := items[i].(isCurrent := items[i].symbol == symbol)];
        i := i + 1;
      }
      assert forall j :: 0 <= j < |items| ==> items[j] == Marked(old(items), symbol)[j];
    }

    method SetTickerLabel(symbol: string)
      modifies this
      ensures tickerLabel == symbol && items == old(items) && currentSymbol == old(currentSymbol)
    {
      tickerLabel := symbol;
    }

    method Clear()
      modifies this
      ensures items == [] && Valid() && currentSymbol == old(currentSymbol) && tickerLabel == old(tickerLabel)
    {
      items := [];
    }

    /**
     * A right-click on row `row`: a click on no row is not handled; a click
     * on a row below the top moves it to the top.
     */
    method RightClick(row: int) returns (handled: bool)
      requires Valid()
      modifies this
      ensures handled <==> 0 <= row < |old(items)|
      ensures items == (if 0 < row < |old(items)| then MovedToTop(old(items), row) else old(items))
      ensures Valid() && currentSymbol == old(currentSymbol) && tickerLabel == old(tickerLabel)
    {
      if row < 0 || row >= |items| {
        return false;
      }
      if row > 0 {
        items := [items[row]] + items[..row] + items[row + 1..];
        MoveKeepsDistinct(old(items), row);
      }
      return true;
    }
  }

  /** Moving a row to the top keeps the same rows: a permutation, so no symbol appears twice. */
  lemma MoveKeepsDistinct(items: seq<TickerItem>, row: nat)
    requires 0 < row < |items|
    ensures multiset(MovedToTop(items, row)) == multiset(items)
    ensures Distinct(items) ==> Distinct(MovedToTop(items, row))
  {
    var r := MovedToTop(items, row);
    assert items == items[..row] + [items[row]] + items[row + 1..];
    if Distinct(items) {
      forall i, j | 0 <= i < j < |r|
        ensures r[i].symbol != r[j].symbol
      {
        // The position of a row of `r` in `items`.
        var oi := if i == 0 then row else if i <= row then i - 1 else i;
        var oj := if j <= row then j - 1 else j;
        assert r[i] == items[oi] && r[j] == items[oj];
      }
    }
  }

  /** With distinct symbols, `setCurrentSymbol` leaves at most one current row. */
  lemma AtMostOneCurrent(items: seq<TickerItem>, symbol: string, i: nat, j: nat)
    requires Distinct(items) && i < |items| && j < |items|
    requires Marked(items, symbol)[i].isCurrent && Marked(items, symbol)[j].isCurrent
    ensures i == j
  {
  }

  /** A symbol added to the list is found in it, and adding it again changes nothing. */
  lemma AddIdempotent(items: seq<TickerItem>, symbol: string)
    ensures Added(Added(items, symbol), symbol) == Added(items, symbol)
  {
  }
}
