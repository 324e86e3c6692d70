/** `parse_csv_lines` (src/ai_review_test.py): splitting text lines into a
    header line and rows keyed by the header fields. */
module Csv {
  import opened Text
  import opened Wrappers

  /** One parsed row: a Python dict from header field to cell text. */
  type Row = map<string, string>

  /** Cell `i` of a split line, or `""` when the line has fewer cells. */
  function Cell(parts: seq<string>, i: nat): string
  {
    if i < |parts| then parts[i] else ""
  }

  /** `headers[i]` is not repeated among the headers before `k`. */
  predicate LastBefore(headers: seq<string>, i: nat, k: nat)
    requires i < k <= |headers|
  {
    forall j :: i < j < k ==> headers[j] != headers[i]
  }

  /** `headers[i]` is not repeated by any later header. */
  predicate LastOccurrence(headers: seq<string>, i: nat)
    requires i < |headers|
  {
    LastBefore(headers, i, |headers|)
  }

  /** The row built by assigning `row[headers[i]]` for `i` from 0 up to
      `k - 1`: each of those headers is a key. */
  function RowUpTo(headers: seq<string>, parts: seq<string>, k: nat): (row: Row)
    requires k <= |headers|
    ensures forall j :: 0 <= j < k ==> headers[j] in row
  {
    if k == 0 then map[]
    else
      RowUpTo(headers, parts, k - 1)[headers[k - 1] := Cell(parts, k - 1)]
  }

  /** `RowUpTo` has no key but the first `k` headers. */
  lemma {:induction false} RowUpToKeys(headers: seq<string>, parts: seq<string>, k: nat)
    requires k <= |headers|
    ensures forall h :: h in RowUpTo(headers, parts, k) ==> h in headers[..k]
  {
    if k > 0 {
      RowUpToKeys(headers, parts, k - 1);
      assert headers[..k] == headers[..k - 1] + [headers[k - 1]];
    }
  }

  /** Each key of `RowUpTo` holds the cell under its last occurrence among
      the first `k` headers, a missing cell reading as `""` and surplus cells
      being dropped. */
  lemma {:induction false} RowUpToCells(headers: seq<string>, parts: seq<string>, k: nat)
    requires k <= |headers|
    ensures forall i :: 0 <= i < k && LastBefore(headers, i, k) ==>
              RowUpTo(headers, parts, k)[headers[i]] == Cell(parts, i)
  {
    if k > 0 {
      RowUpToCells(headers, parts, k - 1);
      var row := RowUpTo(headers, parts, k);
      var prev := RowUpTo(headers, parts, k - 1);
      assert row == prev[headers[k - 1] := Cell(parts, k - 1)];
      forall i | 0 <= i < k && LastBefore(headers, i, k)
        ensures row[headers[i]] == Cell(parts, i)
      {
        if i < k - 1 {
          assert LastBefore(headers, i, k - 1) && headers[i] != headers[k - 1];
          assert prev[headers[i]] == Cell(parts, i);
        }
      }
    }
  }

  /** The row for one data line under the given header fields. */
  function MakeRow(headers: seq<string>, parts: seq<string>): (row: Row)
    ensures forall h :: h in row <==> h in headers
    ensures forall i :: 0 <= i < |headers| && LastOccurrence(headers, i) ==>
              row[headers[i]] == Cell(parts, i)
  {
    assert headers[..|headers|] == headers;
    RowUpToKeys(headers, parts, |headers|);
    RowUpToCells(headers, parts, |headers|);
    RowUpTo(headers, parts, |headers|)
  }

  /** The lines that are not blank, stripped, in input order. */
  function NonBlank(lines: seq<string>): (r: seq<string>)
    ensures |r| <= |lines|
  {
    if |lines| == 0 then []
    else
      var prev := NonBlank(lines[..|lines| - 1]);
      var last := Strip(lines[|lines| - 1]);
      if last == "" then prev else prev + [last]
  }

  /** A line that is non-empty and has no white space at either end. */
  predicate Trimmed(line: string)
  {
    line != [] && !IsSpace(line[0]) && !IsSpace(line[|line| - 1])
  }

  /** Every kept line is non-empty and already stripped. */
  lemma {:induction false} NonBlankTrimmed(lines: seq<string>)
    ensures forall k :: 0 <= k < |NonBlank(lines)| ==> Trimmed(NonBlank(lines)[k])
  {
    if |lines| > 0 {
      var n := |lines| - 1;
      NonBlankTrimmed(lines[..n]);
      var prev := NonBlank(lines[..n]);
      var last := Strip(lines[n]);
      if last != "" {
        assert Trimmed(last);
        assert NonBlank(lines) == prev + [last];
        forall k | 0 <= k < |prev| + 1
          ensures Trimmed((prev + [last])[k])
        {
          if k < |prev| { assert (prev + [last])[k] == prev[k]; }
        }
      }
    }
  }

  /** A line with no white space at either end strips to itself. */
  lemma StripOfTrimmed(line: string)
    requires Trimmed(line)
    ensures Strip(line) == line
  {
    assert TrimStart(line) == line;
  }

  /** Lines that are all non-empty and already stripped are kept as they
      are. */
  lemma {:induction false} NonBlankOfTrimmed(lines: seq<string>)
    requires forall k :: 0 <= k < |lines| ==> Trimmed(lines[k])
    ensures NonBlank(lines) == lines
  {
    if |lines| > 0 {
      var n := |lines| - 1;
      var prev, last := lines[..n], lines[n];
      forall k | 0 <= k < |prev|
        ensures Trimmed(prev[k])
      {
        assert prev[k] == lines[k];
      }
      NonBlankOfTrimmed(prev);
      StripOfTrimmed(last);
      assert lines == prev + [last];
    }
  }

  /** Scanning one more line appends it, stripped, unless it is blank. */
  lemma NonBlankStep(lines: seq<string>, i: nat)
    requires i < |lines|
    ensures NonBlank(lines[..i + 1]) ==
              NonBlank(lines[..i]) + (if Strip(lines[i]) == "" then [] else [Strip(lines[i])])
  {
    assert lines[..i + 1][..i] == lines[..i];
  }

  /** `rows[k]` is the row of data line `body[k]`, for every `k`. */
  predicate RowsOf(rows: seq<Row>, headers: seq<string>, body: seq<string>, sep: char)
  {
    |rows| == |body| && forall k :: 0 <= k < |rows| ==> rows[k] == MakeRow(headers, Split(body[k], sep))
  }

  /** The loop state of `parse_csv_lines`: the header line once seen, and the
      rows so far. */
  datatype ParseState = ParseState(headers: Option<seq<string>>, rows: seq<Row>)

  /** One iteration of the loop of `parse_csv_lines` on `line`. */
  function ParseStep(st: ParseState, line: string, sep: char): ParseState
  {
    var l := Strip(line);
    if l == "" then st
    else match st.headers
      case None => ParseState(Some(Split(l, sep)), st.rows)
      case Some(h) => ParseState(st.headers, st.rows + [MakeRow(h, Split(l, sep))])
  }

  /** The loop state after scanning all of `lines`. */
  function ParseLoop(lines: seq<string>, sep: char): ParseState
  {
    if |lines| == 0 then ParseState(None, [])
    else ParseStep(ParseLoop(lines[..|lines| - 1], sep), lines[|lines| - 1], sep)
  }

  /** A loop state accounts for the non-blank lines `nb` seen so far: no
      headers and no rows before the first, then the first one's cells as
      headers and one row per later line. */
  predicate Accounts(st: ParseState, nb: seq<string>, sep: char)
  {
    && (st.headers.Some? <==> |nb| > 0)
    && (st.headers.None? ==> st.rows == [])
    && (st.headers.Some? ==> st.headers.value == Split(nb[0], sep) && RowsOf(st.rows, st.headers.value, nb[1..], sep))
  }

  /** One more line keeps the account, the line joining the non-blank ones
      unless it is blank. */
  lemma StepAccounts(st: ParseState, nb: seq<string>, line: string, sep: char)
    requires Accounts(st, nb, sep)
    ensures var l := Strip(line);
      Accounts(ParseStep(st, line, sep), if l == "" then nb else nb + [l], sep)
  {
    var l := Strip(line);
    if l != "" {
      if st.headers.Some? {
        TailAppend(nb, l);
        RowsOfAppend(st.rows, st.headers.value, nb[1..], sep, l);
      } else {
        assert (nb + [l])[1..] == [];
      }
    }
  }

  /** The loop state in terms of the non-blank lines. */
  lemma {:induction false} ParseLoopRows(lines: seq<string>, sep: char)
    ensures Accounts(ParseLoop(lines, sep), NonBlank(lines), sep)
  {
    if |lines| > 0 {
      var n := |lines| - 1;
      ParseLoopRows(lines[..n], sep);
      NonBlankStep(lines, n);
      assert lines[..n + 1] == lines;
      assert ParseLoop(lines, sep) == ParseStep(ParseLoop(lines[..n], sep), lines[n], sep);
      StepAccounts(ParseLoop(lines[..n], sep), NonBlank(lines[..n]), lines[n], sep);
    }
  }

  lemma RowsOfAppend(rows: seq<Row>, headers: seq<string>, body: seq<string>, sep: char, line: string)
    requires RowsOf(rows, headers, body, sep)
    ensures RowsOf(rows + [MakeRow(headers, Split(line, sep))], headers, body + [line], sep)
  {
  }

  lemma TailAppend<T>(s: seq<T>, x: T)
    requires |s| > 0
    ensures (s + [x])[1..] == s[1..] + [x]
  {
  }

  /** The rows the loop produces, stated over the non-blank lines. */
  lemma ParseLoopSpec(lines: seq<string>, sep: char)
    ensures var rows := ParseLoop(lines, sep).rows;
            var nb := NonBlank(lines);
      && |rows| == (if |nb| == 0 then 0 else |nb| - 1)
      && forall k :: 0 <= k < |rows| ==> rows[k] == MakeRow(Split(nb[0], sep), Split(nb[k + 1], sep))
  {
    ParseLoopRows(lines, sep);
  }

  /** Scanning one more line is one more loop step. */
  lemma ParseLoopStep(lines: seq<string>, i: nat, sep: char)
    requires i < |lines|
    ensures ParseLoop(lines[..i + 1], sep) == ParseStep(ParseLoop(lines[..i], sep), lines[i], sep)
  {
    assert lines[..i + 1][..i] == lines[..i];
  }

  /** `parse_csv_lines(lines, sep)`: the first non-blank line, stripped and
      split, gives the headers; every later non-blank line gives exactly one
      row built from its own cells; blank lines are skipped. */
  method ParseCsvLines(lines: seq<string>, sep: char) returns (rows: seq<Row>)
    ensures var nb := NonBlank(lines);
      |rows| == if |nb| == 0 then 0 else |nb| - 1
    ensures var nb := NonBlank(lines);
      forall k :: 0 <= k < |rows| ==> rows[k] == MakeRow(Split(nb[0], sep), Split(nb[k + 1], sep))
  {
    var headers: Option<seq<string>> := None;
    rows := [];
    var i := 0;
    while i < |lines|
      invariant 0 <= i <= |lines|
      invariant ParseState(headers, rows) == ParseLoop(lines[..i], sep)
    {
      ParseLoopStep(lines, i, sep);
      ghost var next := ParseStep(ParseState(headers, rows), lines[i], sep);
      var line := Strip(lines[i]);
      if line != "" {
        var parts := Split(line, sep);
        if headers.None? {
          headers := Some(parts);
        } else {
          rows := rows + [MakeRow(headers.value, parts)];
        }
      }
      assert ParseState(headers, rows) == next;
      i := i + 1;
    }
    assert lines[..i] == lines;
    ParseLoopSpec(lines, sep);
  }
}
