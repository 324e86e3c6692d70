/** The demonstration in `main` of src/ai_review_test.py: six CSV lines,
    parsed with `parse_csv_lines` and totalled by day with
    `compute_daily_totals`. */
module Demo {
  import opened Wrappers
  import opened Text
  import opened Records
  import Csv
  import opened Aggregation

  /** A record as `parse_csv_lines` yields it for the header `ts,mw,asset`
      and a line `<date>T<time>,<mw>,wind`. */
  function CsvRecord(date: string, time: string, mw: string): Record
  {
    map["ts" := Str(date + "T" + time), "mw" := Str(mw), "asset" := Str("wind")]
  }

  /** Such a record falls on `date` and on no other day, and adds to it
      whatever the parser makes of `mw`. */
  lemma CsvRecordFacts(date: string, time: string, mw: string, day: string, parse: Parser)
    requires 'T' !in date
    ensures DayOf(CsvRecord(date, time, mw)) == {date}
    ensures !Timestamp(CsvRecord(date, time, mw), "ts").Number?
    ensures Share(CsvRecord(date, time, mw), day, parse) == if day == date then parse(mw).GetOr(0.0) else 0.0
  {
    DayKeyOfIso(date, time);
    var r := CsvRecord(date, time, mw);
    assert r["ts"] == Str(date + "T" + time);
    assert r["mw"] == Str(mw);
    assert |date + "T" + time| > 0;
  }

  /** The header `ts,mw,asset` as the parser splits it. */
  lemma CsvHeader()
    ensures Split("ts,mw,asset", ',') == ["ts", "mw", "asset"]
  {
    SplitOfThree("ts", "mw", "asset", ',');
    assert "ts" + [','] + "mw" + [','] + "asset" == "ts,mw,asset";
  }

  /** Under the header `ts,mw,asset`, the line `<date>T<time>,<mw>,wind`
      becomes `CsvRecord(date, time, mw)`. */
  lemma CsvLineRecord(date: string, time: string, mw: string, line: string)
    requires line == date + "T" + time + "," + mw + ",wind"
    requires ',' !in date + "T" + time && ',' !in mw
    ensures FromRow(Csv.MakeRow(["ts", "mw", "asset"], Split(line, ','))) == CsvRecord(date, time, mw)
  {
    var ts := date + "T" + time;
    SplitOfThree(ts, mw, "wind", ',');
    assert line == ts + [','] + mw + [','] + "wind";
    CsvHeaderRow(ts, mw, "wind");
    var row := map["ts" := ts, "mw" := mw, "asset" := "wind"];
    var r := FromRow(row);
    assert r.Keys == CsvRecord(date, time, mw).Keys;
  }

  /** Under the header `ts,mw,asset`, the three cells of a line fill the
      three fields in order. */
  lemma CsvHeaderRow(a: string, b: string, c: string)
    ensures Csv.MakeRow(["ts", "mw", "asset"], [a, b, c]) == map["ts" := a, "mw" := b, "asset" := c]
  {
    var headers := ["ts", "mw", "asset"];
    assert "ts" != "mw" && "ts" != "asset" && "mw" != "asset";
    assert Csv.LastOccurrence(headers, 0) && Csv.LastOccurrence(headers, 1) && Csv.LastOccurrence(headers, 2);
    var row := Csv.MakeRow(headers, [a, b, c]);
    assert row["ts"] == a && row["mw"] == b && row["asset"] == c;
    assert row.Keys == {"ts", "mw", "asset"} by {
      forall h ensures h in row <==> h in headers {}
    }
  }

  /** The date, time and reading of line `k + 1` of the CSV text in
      `main`. */
  function MainDay(k: nat): string
  {
    if k < 3 then "2026-01-01" else "2026-01-02"
  }

  function MainTime(k: nat): string
    requires k < 5
  {
    ["00:00:00", "00:05:00", "00:10:00", "00:00:00", "00:05:00"][k]
  }

  function MainReading(k: nat): string
    requires k < 5
  {
    ["510", "530", "not_a_number", "490", "525"][k]
  }

  /** The five records of the demonstration in `main`. */
  function MainRecords(): (rs: seq<Record>)
    ensures |rs| == 5
  {
    seq(5, k requires 0 <= k < 5 => CsvRecord(MainDay(k), MainTime(k), MainReading(k)))
  }

  /** The CSV text of the demonstration in `main`. */
  function MainLines(): seq<string>
  {
    [ "ts,mw,asset",
      "2026-01-01T00:00:00,510,wind",
      "2026-01-01T00:05:00,530,wind",
      "2026-01-01T00:10:00,not_a_number,wind",
      "2026-01-02T00:00:00,490,wind",
      "2026-01-02T00:05:00,525,wind" ]
  }

  /** Line `k + 1` of `main`'s CSV text is the line of record `k`. */
  predicate MainLineOf(k: nat)
    requires k < 5
  {
    MainLines()[k + 1] == MainDay(k) + "T" + MainTime(k) + "," + MainReading(k) + ",wind"
  }

  /** The cells of record `k`'s line hold no comma. */
  lemma MainCellsCommaFree(k: nat)
    requires k < 5
    ensures ',' !in MainDay(k) + "T" + MainTime(k) && ',' !in MainReading(k)
  {
  }

  lemma MainLineParts(k: nat)
    requires k < 5
    ensures MainLineOf(k)
  {
    if k == 0 { MainLine1(); }
    else if k == 1 { MainLine2(); }
    else if k == 2 { MainLine3(); }
    else if k == 3 { MainLine4(); }
    else { MainLine5(); }
  }

  /** Data lines 1 to 5 of `main`'s CSV text are, in order, the lines of
      the records at 2026-01-01 00:00, 00:05 and 00:10 and at 2026-01-02
      00:00 and 00:05. */
  lemma MainLine1()
    ensures MainLineOf(0)
  {
  }

  lemma MainLine2()
    ensures MainLineOf(1)
  {
  }

  lemma MainLine3()
    ensures MainLineOf(2)
  {
  }

  lemma MainLine4()
    ensures MainLineOf(3)
  {
  }

  lemma MainLine5()
    ensures MainLineOf(4)
  {
  }

  /** The parser reads line `k + 1` of `main`'s CSV text, under the header
      line, as record `k` of `MainRecords`. */
  lemma MainLineRecord(k: nat)
    requires k < 5
    ensures FromRow(Csv.MakeRow(Split(MainLines()[0], ','), Split(MainLines()[k + 1], ',')))
            == MainRecords()[k]
  {
    CsvHeader();
    MainLineParts(k);
    MainCellsCommaFree(k);
    CsvLineRecord(MainDay(k), MainTime(k), MainReading(k), MainLines()[k + 1]);
  }

  /** None of `main`'s lines is blank or padded, so the parser keeps all
      six. */
  lemma MainLinesKept()
    ensures Csv.NonBlank(MainLines()) == MainLines()
  {
    var ls := MainLines();
    forall k | 0 <= k < |ls|
      ensures Csv.Trimmed(ls[k])
    {
      assert ls[k][0] == '2' || ls[k][0] == 't';
      assert ls[k][|ls[k]| - 1] == 't' || ls[k][|ls[k]| - 1] == 'd';
    }
    Csv.NonBlankOfTrimmed(ls);
  }

  /** The day a record adds to the day set, if it counts (`"ts"` key). */
  function DayOf(r: Record): set<string>
  {
    if Counted(r, "ts") && Timestamp(r, "ts").Str? then {DayKey(Timestamp(r, "ts").text)} else {}
  }

  /** The day's share of one record. */
  function Share(r: Record, day: string, parse: Parser): real
  {
    if OnDay(r, day, "ts") then Reading(r, "mw", parse) else 0.0
  }

  /** `Days` over five records, one record at a time. */
  lemma DaysOfFive(rs: seq<Record>)
    requires |rs| == 5
    ensures Days(rs, "ts") == DayOf(rs[0]) + DayOf(rs[1]) + DayOf(rs[2]) + DayOf(rs[3]) + DayOf(rs[4])
  {
    forall k | 0 < k <= 5
      ensures Days(rs[..k], "ts") == Days(rs[..k - 1], "ts") + DayOf(rs[k - 1])
    {
      assert rs[..k][..k - 1] == rs[..k - 1];
    }
    assert rs[..5] == rs;
  }

  /** Five records none of which has a numeric timestamp. */
  lemma NoNumericOfFive(rs: seq<Record>)
    requires |rs| == 5
    requires !Timestamp(rs[0], "ts").Number? && !Timestamp(rs[1], "ts").Number?
    requires !Timestamp(rs[2], "ts").Number? && !Timestamp(rs[3], "ts").Number?
    requires !Timestamp(rs[4], "ts").Number?
    ensures !HasNumericTimestamp(rs, "ts")
  {
  }

  /** `DayTotal` over five records, one record at a time. */
  lemma DayTotalOfFive(rs: seq<Record>, day: string, parse: Parser)
    requires |rs| == 5
    ensures DayTotal(rs, day, "ts", "mw", parse)
            == Share(rs[0], day, parse) + Share(rs[1], day, parse) + Share(rs[2], day, parse)
               + Share(rs[3], day, parse) + Share(rs[4], day, parse)
  {
    forall k | 0 < k <= 5
      ensures DayTotal(rs[..k], day, "ts", "mw", parse)
              == DayTotal(rs[..k - 1], day, "ts", "mw", parse) + Share(rs[k - 1], day, parse)
    {
      assert rs[..k][..k - 1] == rs[..k - 1];
    }
    assert rs[..5] == rs;
  }

  /** Record `k` of `main` falls on its date and adds its reading there. */
  lemma MainRecordFacts(k: nat, day: string, parse: Parser)
    requires k < 5
    ensures DayOf(MainRecords()[k]) == {MainDay(k)}
    ensures !Timestamp(MainRecords()[k], "ts").Number?
    ensures Share(MainRecords()[k], day, parse)
            == if day == MainDay(k) then parse(MainReading(k)).GetOr(0.0) else 0.0
  {
    CsvRecordFacts(MainDay(k), MainTime(k), MainReading(k), day, parse);
  }

  /** The demonstration in `main` has text timestamps on two days. */
  lemma MainDays()
    ensures !HasNumericTimestamp(MainRecords(), "ts")
    ensures Days(MainRecords(), "ts") == {"2026-01-01", "2026-01-02"}
  {
    var p: Parser := _ => None;
    MainRecordFacts(0, "", p);
    MainRecordFacts(1, "", p);
    MainRecordFacts(2, "", p);
    MainRecordFacts(3, "", p);
    MainRecordFacts(4, "", p);
    DaysOfFive(MainRecords());
    NoNumericOfFive(MainRecords());
  }

  /** The demonstration in `main`: the unparseable reading counts 0, so the
      first day totals 1040 and the second 1015. With `MainDays` and
      `ComputeDailyTotals`, the result is
      `{"2026-01-01": 1040.0, "2026-01-02": 1015.0}`. */
  lemma MainDailyTotals(parse: Parser)
    requires parse("510") == Some(510.0) && parse("530") == Some(530.0)
    requires parse("490") == Some(490.0) && parse("525") == Some(525.0)
    requires parse("not_a_number") == None
    ensures DayTotal(MainRecords(), "2026-01-01", "ts", "mw", parse) == 1040.0
    ensures DayTotal(MainRecords(), "2026-01-02", "ts", "mw", parse) == 1015.0
  {
    var d1, d2 := "2026-01-01", "2026-01-02";
    assert d1 != d2 by {
      assert d1[9] != d2[9];
    }
    DayTotalOfFive(MainRecords(), d1, parse);
    DayTotalOfFive(MainRecords(), d2, parse);
    forall k | 0 <= k < 5
      ensures Share(MainRecords()[k], d1, parse)
              == if d1 == MainDay(k) then parse(MainReading(k)).GetOr(0.0) else 0.0
      ensures Share(MainRecords()[k], d2, parse)
              == if d2 == MainDay(k) then parse(MainReading(k)).GetOr(0.0) else 0.0
    {
      MainRecordFacts(k, d1, parse);
      MainRecordFacts(k, d2, parse);
    }
  }

  /** Rows as `Csv.ParseCsvLines` promises them for lines that are all kept,
      when each data line, under the header line, reads as the matching
      record: as records, the rows are those records. */
  lemma RowsAsRecords(lines: seq<string>, rows: seq<Csv.Row>, sep: char, records: seq<Record>)
    requires Csv.NonBlank(lines) == lines && |lines| == |records| + 1
    requires forall k :: 0 <= k < |records| ==>
               FromRow(Csv.MakeRow(Split(lines[0], sep), Split(lines[k + 1], sep))) == records[k]
    requires |rows| == |lines| - 1
    requires forall k :: 0 <= k < |rows| ==>
               rows[k] == Csv.MakeRow(Split(lines[0], sep), Split(lines[k + 1], sep))
    ensures FromRows(rows) == records
  {
  }

  /** Every data line of `main`'s CSV text reads as its record. */
  lemma MainLineRecords()
    ensures forall k :: 0 <= k < 5 ==>
              FromRow(Csv.MakeRow(Split(MainLines()[0], ','), Split(MainLines()[k + 1], ',')))
              == MainRecords()[k]
  {
    forall k | 0 <= k < 5
      ensures FromRow(Csv.MakeRow(Split(MainLines()[0], ','), Split(MainLines()[k + 1], ',')))
              == MainRecords()[k]
    {
      MainLineRecord(k);
    }
  }

  /** Whatever rows `parse_csv_lines` returns for `main`'s CSV text are,
      as records, the five records of `MainRecords`. The premises are the
      guarantees of `Csv.ParseCsvLines`. */
  lemma MainRows(rows: seq<Csv.Row>)
    requires var nb := Csv.NonBlank(MainLines());
      |rows| == if |nb| == 0 then 0 else |nb| - 1
    requires var nb := Csv.NonBlank(MainLines());
      forall k :: 0 <= k < |rows| ==> rows[k] == Csv.MakeRow(Split(nb[0], ','), Split(nb[k + 1], ','))
    ensures FromRows(rows) == MainRecords()
  {
    MainLinesKept();
    MainLineRecords();
    RowsAsRecords(MainLines(), rows, ',', MainRecords());
  }

  /** The demonstration in `main`, from CSV text to daily totals: with a
      `float` that reads the four numbers and rejects `not_a_number`, the
      result is `{"2026-01-01": 1040.0, "2026-01-02": 1015.0}`. */
  method MainTotals(parse: Parser) returns (totals: Result<map<string, real>>)
    requires parse("510") == Some(510.0) && parse("530") == Some(530.0)
    requires parse("490") == Some(490.0) && parse("525") == Some(525.0)
    requires parse("not_a_number") == None
    ensures totals == Ok(map["2026-01-01" := 1040.0, "2026-01-02" := 1015.0])
  {
    var rows := Csv.ParseCsvLines(MainLines(), ',');
    MainRows(rows);
    MainDays();
    MainDailyTotals(parse);
    totals := ComputeDailyTotals(FromRows(rows), "ts", "mw", parse);
    var d1, d2 := "2026-01-01", "2026-01-02";
    assert totals.value.Keys == {d1, d2};
    assert totals.value[d1] == 1040.0 && totals.value[d2] == 1015.0;
    MapOfTwo(totals.value, d1, d2);
  }

  /** A map with two keys is the display of its two entries. */
  lemma MapOfTwo<K, V>(m: map<K, V>, a: K, b: K)
    requires m.Keys == {a, b}
    ensures m == map[a := m[a], b := m[b]]
  {
  }
}
