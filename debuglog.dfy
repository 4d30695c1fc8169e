/**
 * The debug-log dialog: a table of the log entries that pass the level
 * checkboxes and the search text, a map from message text to table row for
 * in-place updates of repeated messages, and copying of the selected rows.
 * Timestamps are shown as their millisecond count here.
 */
module DebugLog {
  import opened Text
  import opened Logger
  import Seqs

  /** The level checkboxes and the search text. */
  datatype Filter = Filter(debugOn: bool, infoOn: bool, warningOn: bool, errorOn: bool, searchText: string)

  /** One table row: the four cells, and the message it was made for. */
  datatype Row = Row(timestamp: string, level: string, source: string, message: string, key: string)

  function LevelName(level: LogLevel): (name: string)
    ensures name in {"DEBUG", "INFO", "WARNING", "ERROR"}
  {
    match level
    case Debug => "DEBUG"
    case Info => "INFO"
    case Warning => "WARNING"
    case Error => "ERROR"
  }

  function LevelOn(f: Filter, level: LogLevel): bool
  {
    match level
    case Debug => f.debugOn
    case Info => f.infoOn
    case Warning => f.warningOn
    case Error => f.errorOn
  }

  /** `contains(text, Qt::CaseInsensitive)`. */
  predicate ContainsIgnoringCase(s: string, text: string)
  {
    Contains(Lower(s), Lower(text))
  }

  /** `shouldShowEntry`: the level's box is on, and the search text is empty or in the message or source. */
  predicate ShouldShow(f: Filter, e: LogEntry)
  {
    LevelOn(f, e.level)
    && (f.searchText == "" || ContainsIgnoringCase(e.message, f.searchText) || ContainsIgnoringCase(e.source, f.searchText))
  }

  /** The checkbox of an entry's level alone decides when there is no search text; an unchecked level hides it. */
  lemma LevelDecides(f: Filter, e: LogEntry)
    ensures !LevelOn(f, e.level) ==> !ShouldShow(f, e)
    ensures f.searchText == "" ==> (ShouldShow(f, e) <==> LevelOn(f, e.level))
  {
  }

  /** The search ignores letter case: an upper-cased search text shows the same entries. */
  lemma SearchIgnoresCase(f: Filter, e: LogEntry)
    ensures ShouldShow(f, e) <==> ShouldShow(f.(searchText := Upper(f.searchText)), e)
  {
    LowerUpper(f.searchText);
  }

  lemma LowerUpper(s: string)
    ensures Lower(Upper(s)) == Lower(s)
  {
    forall i | 0 <= i < |s|
      ensures Lower(Upper(s))[i] == Lower(s)[i]
    {
      var c := s[i];
      assert Upper(s)[i] == UpperChar(c);
    }
  }

  /** The message cell: the text, and " (repeated Nx)" with N the number of occurrences when repeated. */
  function MessageText(e: LogEntry): (t: string)
    ensures e.repeatCount <= 0 ==> t == e.message
    ensures e.repeatCount > 0 ==> t == e.message + " (repeated " + IntToString(e.repeatCount + 1) + "x)"
    ensures |t| >= |e.message| && t[..|e.message|] == e.message
  {
    if e.repeatCount > 0 then e.message + " (repeated " + IntToString(e.repeatCount + 1) + "x)" else e.message
  }

  /** `addLogToTable`. */
  function RowOf(e: LogEntry): (r: Row)
    ensures r.key == e.message && r.level == LevelName(e.level) && r.source == e.source
    ensures r.message == MessageText(e)
  {
    Row(IntToString(e.timestamp), LevelName(e.level), e.source, MessageText(e), e.message)
  }

  /** The rows of the shown entries, in log order. */
  function ShownRows(f: Filter, entries: seq<LogEntry>): (rows: seq<Row>)
    ensures |rows| <= |entries|
    decreases |entries|
  {
    if |entries| == 0 then []
    else
      var rest := ShownRows(f, entries[..|entries| - 1]);
      var e := entries[|entries| - 1];
      if ShouldShow(f, e) then rest + [RowOf(e)] else rest
  }

  /** The shown entries as a function value, for `Seqs.Filter`. */
  function Shows(f: Filter): LogEntry -> bool
  {
    e => ShouldShow(f, e)
  }

  function RowsOf(entries: seq<LogEntry>): seq<Row>
  {
    seq(|entries|, i requires 0 <= i < |entries| => RowOf(entries[i]))
  }

  /** The table holds one row per entry that passes the filter, in log order, and no other row. */
  lemma {:induction false} ShownRowsAreFiltered(f: Filter, entries: seq<LogEntry>)
    ensures ShownRows(f, entries) == RowsOf(Seqs.Filter(entries, Shows(f)))
    decreases |entries|
  {
    if |entries| > 0 {
      var init := entries[..|entries| - 1];
      var e := entries[|entries| - 1];
      ShownRowsAreFiltered(f, init);
      assert entries == init + [e];
      Seqs.FilterSnoc(init, e, Shows(f));
      var kept := Seqs.Filter(init, Shows(f));
      assert RowsOf(kept + [e]) == RowsOf(kept) + [RowOf(e)];
    }
  }

  /** The message-to-row map rebuilt over a table: each message maps to the last row made for it. */
  function RowMap(rows: seq<Row>): (m: map<string, int>)
    ensures m.Keys == set i | 0 <= i < |rows| :: rows[i].key
    decreases |rows|
  {
    if |rows| == 0 then map[]
    else RowMap(rows[..|rows| - 1])[rows[|rows| - 1].key := |rows| - 1]
  }

  /** The rebuilt map points each message at a row made for it, the last one, and covers every row. */
  lemma {:induction false} RowMapPointsAtLastRow(rows: seq<Row>)
    ensures forall k :: k in RowMap(rows) ==>
      0 <= RowMap(rows)[k] < |rows| && rows[RowMap(rows)[k]].key == k
      && forall j :: RowMap(rows)[k] < j < |rows| ==> rows[j].key != k
    ensures forall i :: 0 <= i < |rows| ==> rows[i].key in RowMap(rows)
    decreases |rows|
  {
    if |rows| > 0 {
      var front := rows[..|rows| - 1];
      RowMapPointsAtLastRow(front);
      assert forall i :: 0 <= i < |front| ==> rows[i] == front[i];
    }
  }

  /** One copied line: the cells joined by tabs, then a newline. */
  function Line(r: Row): string
  {
    Join([r.timestamp, r.level, r.source, r.message], "\t") + "\n"
  }

  /** The selected rows from `lo` on, in ascending order, each once. */
  function AscendingFrom(selected: set<int>, lo: nat, hi: nat): (rows: seq<nat>)
    requires lo <= hi
    ensures forall k :: 0 <= k < |rows| ==> lo <= rows[k] < hi
    decreases hi - lo
  {
    if lo == hi then []
    else if lo in selected then [lo] + AscendingFrom(selected, lo + 1, hi)
    else AscendingFrom(selected, lo + 1, hi)
  }

  /** The text `copySelectedToClipboard` builds from the given row numbers. */
  function CopyText(rows: seq<Row>, order: seq<nat>): (text: string)
    requires forall k :: 0 <= k < |order| ==> order[k] < |rows|
    ensures text == "" <==> |order| == 0
    ensures |order| > 0 ==> text[|text| - 1] == '\n'
    decreases |order|
  {
    if |order| == 0 then "" else Line(rows[order[0]]) + CopyText(rows, order[1..])
  }

  class DebugLogView {
    var rows: seq<Row>
    var messageToRow: map<string, int>
    var filter: Filter

    constructor(f: Filter)
      ensures rows == [] && messageToRow == map[] && filter == f
    {
      rows := [];
      messageToRow := map[];
      filter := f;
    }

    /** `refreshTable`: the table and the map rebuilt from the log's entries. */
    method RefreshTable(entries: seq<LogEntry>)
      modifies this
      ensures rows == ShownRows(filter, entries) && messageToRow == RowMap(rows)
      ensures filter == old(filter)
    {
      rows := [];
      messageToRow := map[];
      var i := 0;
      while i < |entries|
        invariant 0 <= i <= |entries| && filter == old(filter)
        invariant rows == ShownRows(filter, entries[..i]) && messageToRow == RowMap(rows)
      {
        assert entries[..i + 1][..i] == entries[..i];
        var e := entries[i];
        if ShouldShow(filter, e) {
          var row := |rows|;
          ghost var before := rows;
          rows := rows + [RowOf(e)];
          messageToRow := messageToRow[e.message := row];
          assert rows[..|rows| - 1] == before;
        }
        i := i + 1;
      }
      assert entries[..i] == entries;
    }

    /**
     * `onFilterChanged` and `onSearchTextChanged`: with the checkboxes and the
     * search text now `f`, the table is rebuilt from the log's entries.
     */
    method OnFilterChanged(f: Filter, entries: seq<LogEntry>)
      modifies this
      ensures filter == f
      ensures rows == ShownRows(f, entries) && messageToRow == RowMap(rows)
    {
      filter := f;
      RefreshTable(entries);
    }

    /** `onLogAdded`: a shown entry gets a new last row, which its message now maps to. */
    method OnLogAdded(e: LogEntry)
      modifies this
      ensures ShouldShow(filter, e) ==>
        rows == old(rows) + [RowOf(e)] && messageToRow == old(messageToRow)[e.message := |old(rows)|]
      ensures !ShouldShow(filter, e) ==> rows == old(rows) && messageToRow == old(messageToRow)
      ensures filter == old(filter)
    {
      if !ShouldShow(filter, e) {
        return;
      }
      var row := |rows|;
      rows := rows + [RowOf(e)];
      messageToRow := messageToRow[e.message := row];
    }

    /**
     * `onLogUpdated`: the row mapped to a shown entry's message takes the new
     * timestamp and message text; an unmapped message or a row out of range
     * changes nothing.
     */
    method OnLogUpdated(index: int, e: LogEntry)
      modifies this
      ensures messageToRow == old(messageToRow) && |rows| == |old(rows)| && filter == old(filter)
      ensures if ShouldShow(filter, e) && e.message in messageToRow && 0 <= messageToRow[e.message] < |rows| then
          var row := messageToRow[e.message];
          rows == old(rows)[row := old(rows)[row].(timestamp := IntToString(e.timestamp), message := MessageText(e))]
        else rows == old(rows)
    {
      if !ShouldShow(filter, e) {
        return;
      }
      if e.message !in messageToRow {
        return;
      }
      var row := messageToRow[e.message];
      if row < 0 || row >= |rows| {
        return;
      }
      rows := rows[row := rows[row].(timestamp := IntToString(e.timestamp), message := MessageText(e))];
    }

    /** `onClearLogs`: the table and the map are emptied (the log itself is cleared by its owner). */
    method OnClearLogs()
      modifies this
      ensures rows == [] && messageToRow == map[] && filter == old(filter)
    {
      rows := [];
      messageToRow := map[];
    }

    /**
     * `copySelectedToClipboard`: nothing when nothing is selected; otherwise
     * each selected row once, in ascending order, as a tab-joined line.
     */
    method CopySelected(selected: set<int>) returns (text: Wrappers.Option<string>)
      requires forall r :: r in selected ==> 0 <= r < |rows|
      ensures selected == {} ==> text == Wrappers.None
      ensures selected != {} ==> text == Wrappers.Some(CopyText(rows, AscendingFrom(selected, 0, |rows|)))
    {
      if selected == {} {
        return Wrappers.None;
      }
      var s := CopyLines(rows, selected);
      text := Wrappers.Some(s);
    }
  }

  /** The selected rows' lines, gathered from the last row back so that they come out in ascending order. */
  method CopyLines(rows: seq<Row>, selected: set<int>) returns (s: string)
    ensures s == CopyText(rows, AscendingFrom(selected, 0, |rows|))
  {
    s := "";
    var i := |rows|;
    while i > 0
      invariant 0 <= i <= |rows|
      invariant s == CopyText(rows, AscendingFrom(selected, i, |rows|))
    {
      i := i - 1;
      if i in selected {
        s := Line(rows[i]) + s;
      }
    }
  }

  /** The copy holds every selected row exactly once, in ascending order. */
  lemma CopyOrderIsSelection(selected: set<int>, lo: nat, n: nat)
    requires lo <= n
    ensures var order := AscendingFrom(selected, lo, n);
      (forall k :: 0 <= k < |order| ==> order[k] in selected)
      && (forall r :: r in selected && lo <= r < n ==> r in order)
      && (forall k, l :: 0 <= k < l < |order| ==> order[k] < order[l])
  {
    AscendingOnlySelected(selected, lo, n);
    AscendingCoversSelected(selected, lo, n);
    AscendingIncreases(selected, lo, n);
  }

  lemma {:induction false} AscendingOnlySelected(selected: set<int>, lo: nat, n: nat)
    requires lo <= n
    ensures forall k :: 0 <= k < |AscendingFrom(selected, lo, n)| ==> AscendingFrom(selected, lo, n)[k] in selected
    decreases n - lo
  {
    if lo < n {
      AscendingOnlySelected(selected, lo + 1, n);
      AscendingStep(selected, lo, n);
    }
  }

  lemma {:induction false} AscendingCoversSelected(selected: set<int>, lo: nat, n: nat)
    requires lo <= n
    ensures forall r :: r in selected && lo <= r < n ==> r in AscendingFrom(selected, lo, n)
    decreases n - lo
  {
    if lo < n {
      AscendingCoversSelected(selected, lo + 1, n);
      AscendingStep(selected, lo, n);
    }
  }

  lemma {:induction false} AscendingIncreases(selected: set<int>, lo: nat, n: nat)
    requires lo <= n
    ensures var order := AscendingFrom(selected, lo, n);
      forall k, l :: 0 <= k < l < |order| ==> order[k] < order[l]
    decreases n - lo
  {
    if lo < n {
      AscendingIncreases(selected, lo + 1, n);
      AscendingStep(selected, lo, n);
    }
  }

  /** The rows from `lo` on: `lo` itself when selected, then the rows from `lo + 1` on. */
  lemma AscendingStep(selected: set<int>, lo: nat, n: nat)
    requires lo < n
    ensures var rest := AscendingFrom(selected, lo + 1, n);
      AscendingFrom(selected, lo, n) == if lo in selected then [lo] + rest else rest
    ensures var rest := AscendingFrom(selected, lo + 1, n);
      forall k :: 0 <= k < |rest| ==> rest[k] > lo
  {
  }

  /**
   * Adding a shown entry row by row gives the table and the map a refresh
   * over the longer log would build; a hidden entry changes neither.
   */
  lemma AddedMatchesRefresh(f: Filter, entries: seq<LogEntry>, e: LogEntry)
    ensures var rows := ShownRows(f, entries);
      if ShouldShow(f, e) then
        ShownRows(f, entries + [e]) == rows + [RowOf(e)]
        && RowMap(ShownRows(f, entries + [e])) == RowMap(rows)[e.message := |rows|]
      else ShownRows(f, entries + [e]) == rows
  {
    assert (entries + [e])[..|entries|] == entries;
    var rows := ShownRows(f, entries);
    assert (rows + [RowOf(e)])[..|rows|] == rows;
  }

  /** A repeated entry's message cell starts with the message and names the number of occurrences. */
  lemma RepeatSuffix(e: LogEntry)
    requires e.repeatCount > 0
    ensures var t := MessageText(e);
      t[..|e.message|] == e.message && t[|e.message|..] == " (repeated " + Decimal(e.repeatCount + 1) + "x)"
  {
    var t := MessageText(e);
    assert t == e.message + (" (repeated " + IntToString(e.repeatCount + 1) + "x)");
  }
}
