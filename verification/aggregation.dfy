/** `compute_daily_totals` and `moving_average` (src/ai_review_test.py). */
module Aggregation {
  import opened Wrappers
  import opened Text
  import opened Records
  import Stats
  import Csv

  /* ---------------------------------------------------------------------
     Daily totals
     --------------------------------------------------------------------- */

  /** The calendar-day key of a timestamp: the text before the first `T` when
      there is one (ISO `2026-01-01T00:05:00`), otherwise the text before the
      first space (`2026-01-01 00:05:00`). */
  function DayKey(ts: string): string
  {
    if 'T' in ts then Split(ts, 'T')[0] else Split(ts, ' ')[0]
  }

  /** The day key is a prefix of the timestamp that ends right before its
      first `T`, or, for a timestamp without `T`, right before its first space
      or at its end. */
  lemma DayKeyPrefix(ts: string)
    ensures var key := DayKey(ts);
      && |key| <= |ts| && ts[..|key|] == key && 'T' !in key
      && ('T' in ts ==> |key| < |ts| && ts[|key|] == 'T')
      && ('T' !in ts ==> ' ' !in key && (|key| == |ts| || ts[|key|] == ' '))
  {
    SplitHead(ts, 'T');
    SplitHead(ts, ' ');
    if 'T' !in ts {
      var key := Split(ts, ' ')[0];
      assert forall x :: x in key ==> x in ts by {
        forall x | x in key ensures x in ts {
          var j :| 0 <= j < |key| && key[j] == x;
          assert ts[j] == key[j];
        }
      }
    }
  }

  /** The timestamp of a record as `r.get(date_key, "")` reads it. */
  function Timestamp(r: Record, dateKey: string): Field
  {
    if dateKey in r then r[dateKey] else Str("")
  }

  /** The records the loop adds up: those whose timestamp is present and not
      `""`. A numeric timestamp is not skipped; it makes the `in` test raise. */
  predicate Counted(r: Record, dateKey: string)
  {
    Timestamp(r, dateKey) != Str("")
  }

  /** The value of a record as `to_float(r.get(value_key, 0))` reads it. */
  function Reading(r: Record, valueKey: string, parse: Parser): real
  {
    ToFloat(if valueKey in r then r[valueKey] else Number(0.0), parse, 0.0)
  }

  /** Reference definition of one day's total: the sum of the readings of the
      counted records whose timestamp falls on `day`. */
  function DayTotal(records: seq<Record>, day: string, dateKey: string, valueKey: string,
                    parse: Parser): real
  {
    if |records| == 0 then 0.0
    else
      var r := records[|records| - 1];
      DayTotal(records[..|records| - 1], day, dateKey, valueKey, parse)
        + if OnDay(r, day, dateKey) then Reading(r, valueKey, parse) else 0.0
  }

  predicate OnDay(r: Record, day: string, dateKey: string)
  {
    Counted(r, dateKey) && Timestamp(r, dateKey).Str? && DayKey(Timestamp(r, dateKey).text) == day
  }

  /** The days that occur among the counted records. */
  function Days(records: seq<Record>, dateKey: string): set<string>
  {
    if |records| == 0 then {}
    else
      var r := records[|records| - 1];
      Days(records[..|records| - 1], dateKey)
        + if Counted(r, dateKey) && Timestamp(r, dateKey).Str?
          then {DayKey(Timestamp(r, dateKey).text)} else {}
  }

  /** The days of a longer record list: those of the shorter one and the day
      the last record falls on, if it counts. */
  lemma DaysStep(records: seq<Record>, dateKey: string, day: string)
    requires |records| > 0
    ensures day in Days(records, dateKey)
            <==> day in Days(records[..|records| - 1], dateKey) || OnDay(records[|records| - 1], day, dateKey)
  {
  }

  /** A day occurs exactly when some counted record falls on it. */
  lemma {:induction false} DaysOccur(records: seq<Record>, dateKey: string, day: string)
    ensures day in Days(records, dateKey) <==> exists k :: 0 <= k < |records| && OnDay(records[k], day, dateKey)
  {
    if |records| > 0 {
      var n := |records| - 1;
      var init := records[..n];
      DaysOccur(init, dateKey, day);
      DaysStep(records, dateKey, day);
      if day in Days(records, dateKey) {
        if !OnDay(records[n], day, dateKey) {
          var k :| 0 <= k < n && OnDay(init[k], day, dateKey);
          assert records[k] == init[k];
        }
      }
      if exists k :: 0 <= k < |records| && OnDay(records[k], day, dateKey) {
        var k :| 0 <= k < |records| && OnDay(records[k], day, dateKey);
        if k < n {
          assert init[k] == records[k];
        }
      }
    }
  }

  /** A day on which no counted record falls totals zero. */
  lemma {:induction false} DayTotalOutside(records: seq<Record>, day: string, dateKey: string,
                                           valueKey: string, parse: Parser)
    requires day !in Days(records, dateKey)
    ensures DayTotal(records, day, dateKey, valueKey, parse) == 0.0
  {
    if |records| > 0 {
      DayTotalOutside(records[..|records| - 1], day, dateKey, valueKey, parse);
    }
  }

  /** Some counted record has a numeric timestamp, on which `"T" in ts`
      raises `TypeError`. */
  predicate HasNumericTimestamp(records: seq<Record>, dateKey: string)
  {
    exists k :: 0 <= k < |records| && Timestamp(records[k], dateKey).Number?
  }

  /** `compute_daily_totals(records, date_key, value_key)`: a map from each
      day that occurs to the sum of that day's readings, where records without
      a timestamp are skipped and unparseable or missing values count as 0.0;
      `TypeError` if a timestamp is a number. */
  method ComputeDailyTotals(records: seq<Record>, dateKey: string, valueKey: string, parse: Parser)
    returns (r: Result<map<string, real>>)
    ensures r.Err? <==> HasNumericTimestamp(records, dateKey)
    ensures r.Err? ==> r.error == TypeError
    ensures r.Ok? ==> r.value.Keys == Days(records, dateKey)
    ensures r.Ok? ==> forall day :: day in r.value ==>
              r.value[day] == DayTotal(records, day, dateKey, valueKey, parse)
  {
    var totals: map<string, real> := map[];
    var i := 0;
    while i < |records|
      invariant 0 <= i <= |records|
      invariant !HasNumericTimestamp(records[..i], dateKey)
      invariant totals.Keys == Days(records[..i], dateKey)
      invariant forall day :: day in totals ==>
                  totals[day] == DayTotal(records[..i], day, dateKey, valueKey, parse)
    {
      var rec := records[i];
      assert records[..i + 1][..i] == records[..i];
      NumericTimestampStep(records, dateKey, i);
      var ts := Timestamp(rec, dateKey);
      if ts == Str("") {
        i := i + 1;
        continue;
      }
      if ts.Number? {
        return Err(TypeError);
      }
      var day := DayKey(ts.text);
      var v := Reading(rec, valueKey, parse);
      var before := if day in totals then totals[day] else 0.0;
      if day !in totals {
        DayTotalOutside(records[..i], day, dateKey, valueKey, parse);
      }
      totals := totals[day := before + v];
      i := i + 1;
    }
    assert records[..i] == records;
    return Ok(totals);
  }

  /** Scanning one more record: a numeric timestamp is found in the longer
      prefix exactly when it is in the shorter one or is the new record's. */
  lemma NumericTimestampStep(records: seq<Record>, dateKey: string, i: nat)
    requires i < |records|
    ensures HasNumericTimestamp(records[..i + 1], dateKey) <==>
              HasNumericTimestamp(records[..i], dateKey) || Timestamp(records[i], dateKey).Number?
    ensures HasNumericTimestamp(records[..i + 1], dateKey) ==> HasNumericTimestamp(records, dateKey)
  {
    var p := records[..i + 1];
    if HasNumericTimestamp(p, dateKey) {
      var k :| 0 <= k < |p| && Timestamp(p[k], dateKey).Number?;
      assert records[k] == p[k];
      if k < i { assert records[..i][k] == p[k]; }
    }
    if HasNumericTimestamp(records[..i], dateKey) {
      var k :| 0 <= k < i && Timestamp(records[..i][k], dateKey).Number?;
      assert p[k] == records[..i][k];
    }
    if Timestamp(records[i], dateKey).Number? {
      assert p[i] == records[i];
    }
  }

  /** A record whose timestamp is missing or `""` is skipped: it adds no day
      and nothing to any day's total. */
  lemma SkipBlankTimestamp(records: seq<Record>, r: Record, day: string, dateKey: string,
                           valueKey: string, parse: Parser)
    requires Timestamp(r, dateKey) == Str("")
    ensures Days(records + [r], dateKey) == Days(records, dateKey)
    ensures DayTotal(records + [r], day, dateKey, valueKey, parse)
            == DayTotal(records, day, dateKey, valueKey, parse)
    ensures HasNumericTimestamp(records + [r], dateKey) == HasNumericTimestamp(records, dateKey)
  {
    var rs := records + [r];
    assert rs[..|records|] == records;
    if HasNumericTimestamp(rs, dateKey) {
      var k :| 0 <= k < |rs| && Timestamp(rs[k], dateKey).Number?;
      assert rs[k] == records[k];
    }
    if HasNumericTimestamp(records, dateKey) {
      var k :| 0 <= k < |records| && Timestamp(records[k], dateKey).Number?;
      assert rs[k] == records[k];
    }
  }

  /** A CSV row read as a record: its value under `valueKey` is what the
      parser makes of the cell, 0.0 for unparseable text or a missing
      column. */
  lemma ReadingOfRow(row: Csv.Row, valueKey: string, parse: Parser)
    ensures Reading(FromRow(row), valueKey, parse)
            == if valueKey in row then parse(row[valueKey]).GetOr(0.0) else 0.0
  {
  }

  /** Records parsed from CSV carry only text, so `compute_daily_totals`
      never raises on the output of `parse_csv_lines`. */
  lemma CsvRecordsHaveTextTimestamps(rows: seq<Csv.Row>, dateKey: string)
    ensures !HasNumericTimestamp(FromRows(rows), dateKey)
  {
    var rs := FromRows(rows);
    forall k | 0 <= k < |rs|
      ensures !Timestamp(rs[k], dateKey).Number?
    {
      assert rs[k] == FromRow(rows[k]);
    }
  }

  /** An ISO timestamp `<date>T<time>` falls on `<date>`. */
  lemma DayKeyOfIso(date: string, time: string)
    requires 'T' !in date
    ensures DayKey(date + "T" + time) == date
  {
    var ts := date + "T" + time;
    DayKeyPrefix(ts);
    var key := DayKey(ts);
    assert ts[|date|] == 'T';
    assert key == ts[..|key|] == date;
  }

  /* ---------------------------------------------------------------------
     Moving average
     --------------------------------------------------------------------- */

  /** First index of the window ending at `i`: `max(0, i - window + 1)`. */
  function WindowStart(window: int, i: nat): nat
  {
    if i - window + 1 < 0 then 0 else i - window + 1
  }

  /** The value `moving_average` promises at position `i`: the mean of the
      window of at most `window` values ending at `i`, shrunk at the front of
      the sequence; 0.0 when `window <= 0` leaves the window empty. */
  function WindowMean(values: seq<real>, window: int, i: nat): real
    requires i < |values|
  {
    if window < 1 then 0.0 else Stats.Average(values[WindowStart(window, i)..i + 1])
  }

  /** The inner `for j in range(start, i + 1)` loop of `moving_average`: the
      sum and count of `values[lo..hi]`, or nothing when the range is empty. */
  method RangeSum(values: seq<real>, lo: int, hi: int) returns (s: real, c: int)
    requires 0 <= lo && hi <= |values|
    ensures lo <= hi ==> s == Stats.Sum(values[lo..hi]) && c == hi - lo
    ensures lo > hi ==> s == 0.0 && c == 0
  {
    s := 0.0;
    c := 0;
    var j := lo;
    while j < hi
      invariant lo <= j
      invariant j <= if lo <= hi then hi else lo
      invariant c == j - lo
      invariant lo <= hi ==> s == Stats.Sum(values[lo..j])
      invariant lo > hi ==> s == 0.0
    {
      assert values[lo..j + 1][..j - lo] == values[lo..j];
      s := s + values[j];
      c := c + 1;
      j := j + 1;
    }
  }

  /** `moving_average(values, window)`: one output per input, each the mean of
      its trailing window. */
  method MovingAverage(values: seq<real>, window: int) returns (out: seq<real>)
    ensures |out| == |values|
    ensures forall i :: 0 <= i < |values| ==> out[i] == WindowMean(values, window, i)
  {
    out := [];
    var i := 0;
    while i < |values|
      invariant 0 <= i <= |values|
      invariant |out| == i
      invariant forall k :: 0 <= k < i ==> out[k] == WindowMean(values, window, k)
    {
      var start := i - window + 1;
      if start < 0 {
        start := 0;
      }
      var s, c := RangeSum(values, start, i + 1);
      var mean := if c != 0 then Stats.Ratio(s, c) else 0.0;
      assert mean == WindowMean(values, window, i) by {
        if window >= 1 {
          assert start == WindowStart(window, i);
        }
      }
      out := out + [mean];
      i := i + 1;
    }
  }

  /** With a window of one, the moving average is the input itself. */
  lemma MovingAverageWindowOne(values: seq<real>, i: nat)
    requires i < |values|
    ensures WindowMean(values, 1, i) == values[i]
  {
    var w := values[i..i + 1];
    assert w == [values[i]];
    assert w[..0] == [];
    assert Stats.Sum(w) == values[i];
  }

  /** Every moving average lies between any bounds of the values. */
  lemma MovingAverageBounds(values: seq<real>, window: int, i: nat, lo: real, hi: real)
    requires i < |values| && window >= 1
    requires forall k :: 0 <= k < |values| ==> lo <= values[k] <= hi
    ensures lo <= WindowMean(values, window, i) <= hi
  {
    var w := values[WindowStart(window, i)..i + 1];
    assert forall k :: 0 <= k < |w| ==> w[k] == values[WindowStart(window, i) + k];
    Stats.AverageBounds(w, lo, hi);
  }

  /** The worked example: `moving_average([1, 2, 3, 4], 2)` is
      `[1.0, 1.5, 2.5, 3.5]`. */
  lemma MovingAverageExample()
    ensures var v := [1.0, 2.0, 3.0, 4.0];
      && WindowMean(v, 2, 0) == 1.0 && WindowMean(v, 2, 1) == 1.5
      && WindowMean(v, 2, 2) == 2.5 && WindowMean(v, 2, 3) == 3.5
  {
    var v := [1.0, 2.0, 3.0, 4.0];
    assert v[0..1] == [1.0] && [1.0][..0] == [];
    assert v[0..2] == [1.0, 2.0] && [1.0, 2.0][..1] == [1.0];
    assert v[1..3] == [2.0, 3.0] && [2.0, 3.0][..1] == [2.0];
    assert v[2..4] == [3.0, 4.0] && [3.0, 4.0][..1] == [3.0];
  }
}
