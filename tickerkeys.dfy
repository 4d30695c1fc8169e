/**
 * The pure helpers of the ticker data manager: the `symbol@exchange` ticker
 * key, the three timeframe tables (label, TWS bar-size text, seconds), the
 * duration of a historical-data request, and the bucketing of 5-second bars
 * into a larger timeframe with C++ integer division.
 */
module TickerKeys {
  import opened Text

  // ---------------------------------------------------------------- ticker keys

  /** `makeTickerKey`: the bare symbol when the exchange is empty, `symbol@exchange` otherwise. */
  function MakeTickerKey(symbol: string, exchange: string): string
  {
    if exchange == "" then symbol else symbol + "@" + exchange
  }

  /** `parseTickerKey`: the text around the first and second '@', or the whole key and "". */
  function ParseTickerKey(key: string): (string, string)
  {
    if '@' in key then
      var parts := SplitOn(key, "@");
      SplitSeparated(key, '@');
      (parts[0], parts[1])
    else (key, "")
  }

  /** Decoding a key gives back the symbol and exchange it was made from. */
  lemma TickerKeyRoundTrip(symbol: string, exchange: string)
    requires '@' !in symbol && '@' !in exchange
    ensures ParseTickerKey(MakeTickerKey(symbol, exchange)) == (symbol, exchange)
  {
    if exchange != "" {
      var key := symbol + "@" + exchange;
      assert key[|symbol|] == '@';
      SplitAtFirst(symbol, "@", exchange);
      SplitNoSeparator(exchange, '@');
    }
  }

  /** Different '@'-free (symbol, exchange) pairs never share a key. */
  lemma TickerKeyInjective(s1: string, e1: string, s2: string, e2: string)
    requires '@' !in s1 && '@' !in e1 && '@' !in s2 && '@' !in e2
    requires MakeTickerKey(s1, e1) == MakeTickerKey(s2, e2)
    ensures s1 == s2 && e1 == e2
  {
    TickerKeyRoundTrip(s1, e1);
    TickerKeyRoundTrip(s2, e2);
  }

  // ---------------------------------------------------------------- timeframes

  datatype Timeframe = Sec5 | Sec10 | Sec30 | Min1 | Min5 | Min15 | Min30 | Hour1

  /** `timeframeToString`: the label shown in the UI. */
  function TimeframeToString(tf: Timeframe): string
  {
    match tf
    case Sec5 => "5s"
    case Sec10 => "10s"
    case Sec30 => "30s"
    case Min1 => "1m"
    case Min5 => "5m"
    case Min15 => "15m"
    case Min30 => "30m"
    case Hour1 => "1H"
  }

  /** `timeframeToBarSize`: the bar-size text of a TWS historical-data request. */
  function TimeframeToBarSize(tf: Timeframe): string
  {
    match tf
    case Sec5 => "5 secs"
    case Sec10 => "10 secs"
    case Sec30 => "30 secs"
    case Min1 => "1 min"
    case Min5 => "5 mins"
    case Min15 => "15 mins"
    case Min30 => "30 mins"
    case Hour1 => "1 hour"
  }

  /** `timeframeToSeconds`: the length of one bar. */
  function TimeframeToSeconds(tf: Timeframe): (seconds: nat)
    ensures seconds >= 5 && seconds % 5 == 0
    ensures 86400 % seconds == 0
  {
    match tf
    case Sec5 => 5
    case Sec10 => 10
    case Sec30 => 30
    case Min1 => 60
    case Min5 => 300
    case Min15 => 900
    case Min30 => 1800
    case Hour1 => 3600
  }

  /** Position of a timeframe in the list of timeframes, shortest first. */
  function Rank(tf: Timeframe): nat
  {
    match tf
    case Sec5 => 0
    case Sec10 => 1
    case Sec30 => 2
    case Min1 => 3
    case Min5 => 4
    case Min15 => 5
    case Min30 => 6
    case Hour1 => 7
  }

  /** Longer timeframes have longer bars: the table is strictly increasing and so one-to-one. */
  lemma SecondsIncreasing(a: Timeframe, b: Timeframe)
    ensures Rank(a) < Rank(b) <==> TimeframeToSeconds(a) < TimeframeToSeconds(b)
    ensures a == b <==> TimeframeToSeconds(a) == TimeframeToSeconds(b)
  {
  }

  /** Seconds of a unit word of the bar-size text. */
  function UnitSeconds(unit: string): nat
  {
    if unit == "secs" then 1
    else if unit == "min" || unit == "mins" then 60
    else if unit == "hour" then 3600
    else 0
  }

  /** The bar length a TWS bar-size text ("<count> <unit>") stands for. */
  function BarSizeSeconds(text: string): nat
  {
    var parts := SplitOn(text, " ");
    if |parts| == 2 && AllDigits(parts[0]) then DecimalValue(parts[0]) * UnitSeconds(parts[1]) else 0
  }

  /** The bar length a UI label ("<count>s", "<count>m", "<count>H") stands for. */
  function LabelSeconds(text: string): nat
  {
    if |text| < 2 || !AllDigits(text[..|text| - 1]) then 0
    else
      var unit := text[|text| - 1];
      DecimalValue(text[..|text| - 1]) * (if unit == 's' then 1 else if unit == 'm' then 60 else if unit == 'H' then 3600 else 0)
  }

  lemma BarSizeValue(count: nat, unit: string)
    requires ' ' !in unit
    ensures BarSizeSeconds(Decimal(count) + " " + unit) == count * UnitSeconds(unit)
  {
    var d := Decimal(count);
    assert ' ' !in d by {
      assert forall k :: 0 <= k < |d| ==> IsDigit(d[k]);
    }
    SplitAtFirst(d, " ", unit);
    SplitNoSeparator(unit, ' ');
    DecimalRoundTrip(count);
  }

  lemma LabelValue(count: nat, unit: char)
    ensures LabelSeconds(Decimal(count) + [unit])
      == count * (if unit == 's' then 1 else if unit == 'm' then 60 else if unit == 'H' then 3600 else 0)
  {
    var text := Decimal(count) + [unit];
    assert text[..|text| - 1] == Decimal(count);
    DecimalRoundTrip(count);
  }

  /** The numerals the tables use. */
  lemma SmallDecimals()
    ensures Decimal(1) == "1" && Decimal(5) == "5" && Decimal(10) == "10" && Decimal(15) == "15" && Decimal(30) == "30"
  {
  }

  /** The bar-size table describes the same bar length as the seconds table, for every timeframe. */
  lemma BarSizeTableAgrees(tf: Timeframe)
    ensures BarSizeSeconds(TimeframeToBarSize(tf)) == TimeframeToSeconds(tf)
  {
    if tf in {Sec5, Sec10, Sec30, Min1} {
      ShortBarSizes(tf);
    } else {
      LongBarSizes(tf);
    }
  }

  lemma ShortBarSizes(tf: Timeframe)
    requires tf in {Sec5, Sec10, Sec30, Min1}
    ensures BarSizeSeconds(TimeframeToBarSize(tf)) == TimeframeToSeconds(tf)
  {
    SmallDecimals();
    match tf
    case Sec5 =>
      assert TimeframeToBarSize(tf) == Decimal(5) + " " + "secs";
      BarSizeValue(5, "secs");
    case Sec10 =>
      assert TimeframeToBarSize(tf) == Decimal(10) + " " + "secs";
      BarSizeValue(10, "secs");
    case Sec30 =>
      assert TimeframeToBarSize(tf) == Decimal(30) + " " + "secs";
      BarSizeValue(30, "secs");
    case Min1 =>
      assert TimeframeToBarSize(tf) == Decimal(1) + " " + "min";
      BarSizeValue(1, "min");
  }

  lemma LongBarSizes(tf: Timeframe)
    requires tf in {Min5, Min15, Min30, Hour1}
    ensures BarSizeSeconds(TimeframeToBarSize(tf)) == TimeframeToSeconds(tf)
  {
    SmallDecimals();
    match tf
    case Min5 =>
      assert TimeframeToBarSize(tf) == Decimal(5) + " " + "mins";
      BarSizeValue(5, "mins");
    case Min15 =>
      assert TimeframeToBarSize(tf) == Decimal(15) + " " + "mins";
      BarSizeValue(15, "mins");
    case Min30 =>
      assert TimeframeToBarSize(tf) == Decimal(30) + " " + "mins";
      BarSizeValue(30, "mins");
    case Hour1 =>
      assert TimeframeToBarSize(tf) == Decimal(1) + " " + "hour";
      BarSizeValue(1, "hour");
  }

  /** The label table describes the same bar length as the seconds table, for every timeframe. */
  lemma LabelTableAgrees(tf: Timeframe)
    ensures LabelSeconds(TimeframeToString(tf)) == TimeframeToSeconds(tf)
  {
    SmallDecimals();
    match tf
    case Sec5 =>
      assert TimeframeToString(tf) == Decimal(5) + ['s'];
      LabelValue(5, 's');
    case Sec10 =>
      assert TimeframeToString(tf) == Decimal(10) + ['s'];
      LabelValue(10, 's');
    case Sec30 =>
      assert TimeframeToString(tf) == Decimal(30) + ['s'];
      LabelValue(30, 's');
    case Min1 =>
      assert TimeframeToString(tf) == Decimal(1) + ['m'];
      LabelValue(1, 'm');
    case Min5 =>
      assert TimeframeToString(tf) == Decimal(5) + ['m'];
      LabelValue(5, 'm');
    case Min15 =>
      assert TimeframeToString(tf) == Decimal(15) + ['m'];
      LabelValue(15, 'm');
    case Min30 =>
      assert TimeframeToString(tf) == Decimal(30) + ['m'];
      LabelValue(30, 'm');
    case Hour1 =>
      assert TimeframeToString(tf) == Decimal(1) + ['H'];
      LabelValue(1, 'H');
  }

  // ---------------------------------------------------------------- historical requests

  const MaxDurationSeconds := 86400

  function Min(a: int, b: int): int
  {
    if a < b then a else b
  }

  /**
   * `requestHistoricalBars`: 500 bars' worth of seconds, at most one day, and
   * at most two hours for the 10-second timeframe. The request asks for 500
   * bars whenever they fit in a day and exactly a day otherwise; the two-hour
   * cap never binds, since 500 ten-second bars last 5000 seconds.
   */
  function HistoricalDuration(tf: Timeframe): (duration: nat)
    ensures duration <= MaxDurationSeconds
    ensures duration % TimeframeToSeconds(tf) == 0
    ensures 24 <= duration / TimeframeToSeconds(tf) <= 500
    ensures tf == Sec10 ==> duration <= 7200
    ensures duration == Min(TimeframeToSeconds(tf) * 500, MaxDurationSeconds)
    ensures tf == Sec10 ==> duration == 5000
  {
    var barSeconds := TimeframeToSeconds(tf);
    var capped := Min(barSeconds * 500, MaxDurationSeconds);
    if tf == Sec10 then Min(capped, 7200) else capped
  }

  // ---------------------------------------------------------------- bucketing

  /** C++ integer division, which truncates toward zero. */
  function CppDiv(a: int, b: int): int
    requires b > 0
  {
    if a >= 0 then a / b else -((-a) / b)
  }

  /** C++ remainder, whose sign follows the dividend. */
  function CppRem(a: int, b: int): int
    requires b > 0
  {
    a - CppDiv(a, b) * b
  }

  /** `(time / barSeconds) * barSeconds`: the start of the bar a 5-second bar belongs to. */
  function BucketStart(time: int, barSeconds: int): (start: int)
    requires barSeconds > 0
    ensures start % barSeconds == 0
    ensures time >= 0 ==> start <= time < start + barSeconds
    ensures time < 0 ==> start - barSeconds < time <= start
  {
    var q := CppDiv(time, barSeconds);
    MultipleMod(q, barSeconds);
    q * barSeconds
  }

  lemma {:induction false} MulAtLeast(k: int, b: int)
    requires k >= 1 && b >= 0
    ensures k * b >= b
    decreases k
  {
    if k > 1 {
      MulAtLeast(k - 1, b);
      assert k * b == (k - 1) * b + b;
    }
  }

  /** Euclidean quotient and remainder are the unique pair with `a == q * b + r` and `0 <= r < b`. */
  lemma DivModUnique(a: int, b: int, q: int, r: int)
    requires b > 0 && a == q * b + r && 0 <= r < b
    ensures a / b == q && a % b == r
  {
    var q0 := a / b;
    var r0 := a % b;
    assert a == q0 * b + r0;
    assert (q - q0) * b == r0 - r;
    if q > q0 {
      MulAtLeast(q - q0, b);
    } else if q < q0 {
      MulAtLeast(q0 - q, b);
    }
  }

  lemma MultipleMod(q: int, b: int)
    requires b > 0
    ensures (q * b) % b == 0
  {
    DivModUnique(q * b, b, q, 0);
  }

  /** A remainder is zero under C++ exactly when it is zero under Dafny's Euclidean `%`. */
  lemma CppRemZero(a: int, b: int)
    requires b > 0
    ensures CppRem(a, b) == 0 <==> a % b == 0
  {
    if a < 0 {
      var q := (-a) / b;
      var r := (-a) % b;
      assert -a == q * b + r;
      assert CppRem(a, b) == -r;
      if r == 0 {
        DivModUnique(a, b, -q, 0);
      } else {
        DivModUnique(a, b, -q - 1, b - r);
      }
    }
  }

  /**
   * For a bar time on the 5-second grid, the aggregated bar is complete
   * (`(time + 5) % barSeconds == 0`) exactly when the 5-second bar is the last
   * one of its bucket.
   */
  lemma LastSlotOfBucket(time: nat, barSeconds: nat)
    requires barSeconds >= 5 && barSeconds % 5 == 0 && time % 5 == 0
    ensures CppRem(time + 5, barSeconds) == 0 <==> time + 5 == BucketStart(time, barSeconds) + barSeconds
  {
    CppRemZero(time + 5, barSeconds);
    var q := time / barSeconds;
    var r := time % barSeconds;
    assert BucketStart(time, barSeconds) == q * barSeconds;
    RemainderOnGrid(time, barSeconds);
    if r + 5 == barSeconds {
      DivModUnique(time + 5, barSeconds, q + 1, 0);
    } else {
      DivModUnique(time + 5, barSeconds, q, r + 5);
    }
  }

  /** On the 5-second grid a remainder modulo a whole number of 5-second slots leaves room for one more slot. */
  lemma RemainderOnGrid(time: nat, barSeconds: nat)
    requires barSeconds >= 5 && barSeconds % 5 == 0 && time % 5 == 0
    ensures time == (time / barSeconds) * barSeconds + time % barSeconds
    ensures time % barSeconds <= barSeconds - 5
  {
    var q := time / barSeconds;
    var r := time % barSeconds;
    var m := barSeconds / 5;
    var t := time / 5;
    ScaleByFive(q, m, barSeconds);
    assert r == 5 * (t - q * m);
  }

  lemma ScaleByFive(q: int, m: int, b: int)
    requires b == 5 * m
    ensures q * b == 5 * (q * m)
  {
  }
}
