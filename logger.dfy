/**
 * The application log: a bounded list of entries in which a message repeated
 * within two seconds, among the last twenty entries, bumps the repeat count
 * of the earlier entry instead of adding a new one. Times are milliseconds,
 * and the current time is a parameter.
 */
module Logger {
  import opened Wrappers

  datatype LogLevel = Debug | Info | Warning | Error

  datatype LogEntry = LogEntry(timestamp: int, level: LogLevel, message: string, source: string, repeatCount: int)

  /** What the log reports to its listeners: a new entry, or an updated one at an index. */
  datatype LogEvent = Added(entry: LogEntry) | Updated(index: nat, entry: LogEntry)

  const MaxEntries := 50000
  const DuplicateWindowMs := 2000
  const DuplicateScanDepth := 20

  /** How many of the newest entries the duplicate scan may look at. */
  function CheckCount(n: nat): (c: nat)
    ensures c <= n && c <= DuplicateScanDepth
    ensures c == n || c == DuplicateScanDepth
  {
    if n < DuplicateScanDepth then n else DuplicateScanDepth
  }

  predicate Recent(e: LogEntry, now: int)
  {
    now - e.timestamp <= DuplicateWindowMs
  }

  /** The newest-first scan gets as far as index `j`: no entry from `j` on is outside the window. */
  predicate ScanReaches(entries: seq<LogEntry>, now: int, j: int)
  {
    forall l :: 0 <= l < |entries| && j <= l ==> Recent(entries[l], now)
  }

  /** The scan after `k` entries have been looked at. */
  function DuplicateScan(entries: seq<LogEntry>, message: string, now: int, k: nat): (r: Option<nat>)
    requires k <= CheckCount(|entries|)
    ensures r.Some? ==> r.value < |entries|
    decreases CheckCount(|entries|) - k
  {
    if k == CheckCount(|entries|) then None
    else
      var i := |entries| - 1 - k;
      if !Recent(entries[i], now) then None
      else if entries[i].message == message then Some(i)
      else DuplicateScan(entries, message, now, k + 1)
  }

  /** What the scan finds after `k` entries: the first match within the window, or nothing. */
  lemma {:induction false} DuplicateScanFinds(entries: seq<LogEntry>, message: string, now: int, k: nat)
    requires k <= CheckCount(|entries|)
    ensures var r := DuplicateScan(entries, message, now, k);
      r.Some? ==>
        |entries| - CheckCount(|entries|) <= r.value < |entries| - k
        && entries[r.value].message == message
        && (forall l :: r.value <= l < |entries| - k ==> Recent(entries[l], now))
        && (forall j :: r.value < j < |entries| - k ==> entries[j].message != message)
    ensures DuplicateScan(entries, message, now, k).None? ==>
      forall j :: |entries| - CheckCount(|entries|) <= j < |entries| - k && ScanReaches(entries, now, j)
        ==> entries[j].message != message
    decreases CheckCount(|entries|) - k
  {
    if k < CheckCount(|entries|) {
      DuplicateScanFinds(entries, message, now, k + 1);
    }
  }

  /**
   * The entry a new message duplicates: the newest of the last twenty entries
   * with the same text, provided no entry from it on is older than the window.
   */
  function DuplicateIndex(entries: seq<LogEntry>, message: string, now: int): (r: Option<nat>)
    ensures r.Some? ==>
      |entries| - DuplicateScanDepth <= r.value < |entries|
      && entries[r.value].message == message
      && ScanReaches(entries, now, r.value)
      && (forall j :: r.value < j < |entries| ==> entries[j].message != message)
    ensures r.None? <==>
      forall j :: |entries| - CheckCount(|entries|) <= j < |entries| && ScanReaches(entries, now, j)
        ==> entries[j].message != message
  {
    DuplicateScanFinds(entries, message, now, 0);
    DuplicateScan(entries, message, now, 0)
  }

  /** The entries after `log`, and what it reports. */
  function Logged(entries: seq<LogEntry>, level: LogLevel, message: string, source: string, now: int)
    : (r: (seq<LogEntry>, LogEvent))
    ensures |entries| <= MaxEntries ==> |r.0| <= MaxEntries
    ensures |entries| <= |r.0| <= |entries| + 1 && |r.0| > 0
  {
    match DuplicateIndex(entries, message, now)
    case Some(i) =>
      var bumped := entries[i].(repeatCount := entries[i].repeatCount + 1, timestamp := now);
      (entries[i := bumped], Updated(i, bumped))
    case None =>
      var e := LogEntry(now, level, message, source, 0);
      ((if |entries| >= MaxEntries then entries[1..] else entries) + [e], Added(e))
  }

  /**
   * A duplicate bumps the repeat count and timestamp of the entry it repeats
   * and changes nothing else; the count stays the same.
   */
  lemma DuplicateBumps(entries: seq<LogEntry>, level: LogLevel, message: string, source: string, now: int)
    requires DuplicateIndex(entries, message, now).Some?
    ensures var i := DuplicateIndex(entries, message, now).value;
      var r := Logged(entries, level, message, source, now);
      |r.0| == |entries| && r.0[i].repeatCount == entries[i].repeatCount + 1 && r.0[i].timestamp == now
      && r.0[i].message == message && r.0[i].level == entries[i].level && r.0[i].source == entries[i].source
      && (forall j :: 0 <= j < |entries| && j != i ==> r.0[j] == entries[j])
      && r.1 == Updated(i, r.0[i])
  {
  }

  /**
   * A message that is not a duplicate is appended last with repeat count 0,
   * after the oldest entry is dropped from a full log.
   */
  lemma FreshAppends(entries: seq<LogEntry>, level: LogLevel, message: string, source: string, now: int)
    requires DuplicateIndex(entries, message, now).None?
    ensures var e := LogEntry(now, level, message, source, 0);
      var r := Logged(entries, level, message, source, now);
      |r.0| > 0 && r.0[|r.0| - 1] == e && r.1 == Added(e)
      && (|entries| < MaxEntries ==> r.0[..|entries|] == entries)
      && (|entries| >= MaxEntries ==> |r.0| == |entries| && r.0[..|entries| - 1] == entries[1..])
  {
  }

  class Log {
    var entries: seq<LogEntry>

    predicate Valid()
      reads this
    {
      |entries| <= MaxEntries
    }

    constructor()
      ensures Valid() && entries == []
    {
      entries := [];
    }

    /** The backward duplicate scan of `log`, newest entry first. */
    method FindDuplicate(message: string, now: int) returns (found: Option<nat>)
      ensures found == DuplicateIndex(entries, message, now)
    {
      var n := |entries|;
      var checkCount := if n < DuplicateScanDepth then n else DuplicateScanDepth;
      var i := n - 1;
      found := None;
      while i >= n - checkCount && i >= 0
        invariant n == |entries| && found == None
        invariant n - checkCount - 1 <= i <= n - 1
        invariant DuplicateScan(entries, message, now, 0) == DuplicateScan(entries, message, now, n - 1 - i)
      {
        if now - entries[i].timestamp > DuplicateWindowMs {
          found := None;
          break;
        }
        if entries[i].message == message {
          found := Some(i);
          break;
        }
        i := i - 1;
      }
      assert found == DuplicateScan(entries, message, now, 0);
    }

    /** `log`: the duplicate scan, then a bump or a bounded append. */
    method Add(level: LogLevel, message: string, source: string, now: int) returns (event: LogEvent)
      requires Valid()
      modifies this
      ensures (entries, event) == Logged(old(entries), level, message, source, now)
      ensures Valid()
    {
      var found := FindDuplicate(message, now);
      if found.Some? {
        var i := found.value;
        var bumped := entries[i].(repeatCount := entries[i].repeatCount + 1, timestamp := now);
        entries := entries[i := bumped];
        return Updated(i, bumped);
      }
      var e := LogEntry(now, level, message, source, 0);
      if |entries| >= MaxEntries {
        entries := entries[1..];
      }
      entries := entries + [e];
      event := Added(e);
    }

    method LogDebug(message: string, source: string, now: int) returns (event: LogEvent)
      requires Valid()
      modifies this
      ensures (entries, event) == Logged(old(entries), Debug, message, source, now)
      ensures Valid()
    {
      event := Add(Debug, message, source, now);
    }

    method LogInfo(message: string, source: string, now: int) returns (event: LogEvent)
      requires Valid()
      modifies this
      ensures (entries, event) == Logged(old(entries), Info, message, source, now)
      ensures Valid()
    {
      event := Add(Info, message, source, now);
    }

    method LogWarning(message: string, source: string, now: int) returns (event: LogEvent)
      requires Valid()
      modifies this
      ensures (entries, event) == Logged(old(entries), Warning, message, source, now)
      ensures Valid()
    {
      event := Add(Warning, message, source, now);
    }

    method LogError(message: string, source: string, now: int) returns (event: LogEvent)
      requires Valid()
      modifies this
      ensures (entries, event) == Logged(old(entries), Error, message, source, now)
      ensures Valid()
    {
      event := Add(Error, message, source, now);
    }

    method Clear()
      modifies this
      ensures entries == [] && Valid()
    {
      entries := [];
    }
  }

  /**
   * A message that was just added is a duplicate of the newest entry when it
   * comes again within the window: the second `log` bumps that entry and
   * leaves the count unchanged.
   */
  lemma RepeatWithinWindow(entries: seq<LogEntry>, level: LogLevel, message: string, source: string,
                           now: int, later: int, level2: LogLevel, source2: string)
    requires DuplicateIndex(entries, message, now).None?
    requires now <= later <= now + DuplicateWindowMs
    ensures var first := Logged(entries, level, message, source, now).0;
      DuplicateIndex(first, message, later) == Some(|first| - 1)
      && var second := Logged(first, level2, message, source2, later).0;
      |second| == |first| && second[|second| - 1].repeatCount == 1
  {
    var first := Logged(entries, level, message, source, now).0;
    assert Recent(first[|first| - 1], later);
    assert CheckCount(|first|) > 0;
    assert DuplicateScan(first, message, later, 0) == Some(|first| - 1);
  }

  /** Any run of `log` calls from a valid log keeps it within MAX_ENTRIES. */
  lemma {:induction false} StaysBounded(entries: seq<LogEntry>, calls: seq<(LogLevel, string, string, int)>)
    requires |entries| <= MaxEntries
    ensures |Replay(entries, calls)| <= MaxEntries
    decreases |calls|
  {
    if |calls| > 0 {
      var (level, message, source, now) := calls[0];
      StaysBounded(Logged(entries, level, message, source, now).0, calls[1..]);
    }
  }

  /** The entries after a sequence of `log` calls. */
  function Replay(entries: seq<LogEntry>, calls: seq<(LogLevel, string, string, int)>): (r: seq<LogEntry>)
    ensures |entries| <= |r| <= |entries| + |calls|
    ensures |calls| > 0 ==> |r| > 0
    decreases |calls|
  {
    if |calls| == 0 then entries
    else
      var (level, message, source, now) := calls[0];
      Replay(Logged(entries, level, message, source, now).0, calls[1..])
  }
}
