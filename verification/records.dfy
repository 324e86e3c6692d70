/** The loosely-structured measurement records of src/ai_review_test.py:
    Python dicts whose values are either text (rows read from CSV) or numbers
    (generated series), and the lenient number coercion `to_float`. */
module Records {
  import opened Wrappers
  import Csv

  /** A dict value: text, or a number (Python int or float, as an exact real). */
  datatype Field = Str(text: string) | Number(num: real)

  /** One record: a dict from field name to value. */
  type Record = map<string, Field>

  /** Python's `float(s)` on a string, which the model leaves abstract: `None`
      is the `ValueError` of unparseable text. */
  type Parser = string -> Option<real>

  /** `to_float(x, default)`: never raises. A number converts to itself,
      text the parser reads converts to what it reads, and anything else
      falls back to `default`. */
  function ToFloat(x: Field, parse: Parser, default: real): (r: real)
    ensures x.Number? ==> r == x.num
    ensures x.Str? && parse(x.text).Some? ==> r == parse(x.text).value
    ensures x.Str? && parse(x.text).None? ==> r == default
  {
    match x
    case Number(v) => v
    case Str(s) => parse(s).GetOr(default)
  }

  /** A parsed CSV row as a record: every cell is text. */
  function FromRow(row: Csv.Row): (r: Record)
    ensures r.Keys == row.Keys
    ensures forall k :: k in r ==> r[k] == Str(row[k])
  {
    map k | k in row :: Str(row[k])
  }

  /** The rows of `parse_csv_lines` as the records `compute_daily_totals`
      receives. */
  function FromRows(rows: seq<Csv.Row>): (rs: seq<Record>)
    ensures |rs| == |rows|
    ensures forall k :: 0 <= k < |rows| ==> rs[k] == FromRow(rows[k])
  {
    seq(|rows|, k requires 0 <= k < |rows| => FromRow(rows[k]))
  }
}
