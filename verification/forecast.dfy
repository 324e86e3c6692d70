/** `forecast_next_day` (src/ai_review_test.py): the mean of the last
    `horizon` readings plus Gaussian noise at each future step, summarised by
    `naive_quantiles`. The noise draws of `random.gauss(0, 50)` are a
    parameter: `noise[i]` is the draw for step `i`. */
module Forecast {
  import opened Wrappers
  import opened Ints
  import opened Records
  import opened Quantiles
  import Stats

  /** What `forecast_next_day` returns: the empty list for no records, or
      the dict with the quantiles and the series. */
  datatype Forecast = NoRecords | Forecast(quantiles: Quantiles, series: seq<real>)

  /** The field every record must carry a number in. */
  const ReadingKey: string := "mw"

  /** Start index of the Python slice `records[-h:]` on `n` records: the last
      `h` records for `h > 0`, and the records from index `-h` on otherwise
      (all of them for `h == 0`). */
  function TailStart(n: nat, h: int): (start: nat)
    ensures start <= n
    ensures h > 0 ==> n - start == (if h < n then h else n)
    ensures h <= 0 ==> start == (if -h < n then -h else n)
  {
    if -h < 0 then (if n - h < 0 then 0 else n - h)
    else (if -h > n then n else -h)
  }

  /** `records[-horizon:]`: for a positive horizon, the last
      `min(horizon, |records|)` records. */
  function LastDay(records: seq<Record>, horizon: int): (last: seq<Record>)
    ensures horizon > 0 ==> last == records[|records| - Min(horizon, |records|)..]
    ensures horizon > 0 ==> |last| == Min(horizon, |records|)
  {
    records[TailStart(|records|, horizon)..]
  }

  /** All records carry a number under `mw`. */
  predicate Numeric(records: seq<Record>)
  {
    forall k :: 0 <= k < |records| ==> ReadingKey in records[k] && records[k][ReadingKey].Number?
  }

  /** The `mw` numbers of records that all carry one. */
  function Numbers(records: seq<Record>): (vals: seq<real>)
    requires Numeric(records)
    ensures |vals| == |records|
    ensures forall k :: 0 <= k < |records| ==> vals[k] == records[k][ReadingKey].num
  {
    seq(|records|, k requires 0 <= k < |records| => records[k][ReadingKey].num)
  }

  /** `[r["mw"] for r in last_day]` followed by `sum(vals)`: `KeyError` if
      some record lacks the field, else `TypeError` if some value is text. */
  function Readings(window: seq<Record>): (r: Result<seq<real>>)
    ensures r.Ok? <==> Numeric(window)
    ensures r.Ok? ==> r.value == Numbers(window)
    ensures r.Err? && (exists k :: 0 <= k < |window| && ReadingKey !in window[k]) ==> r.error == KeyError
    ensures r.Err? && (forall k :: 0 <= k < |window| ==> ReadingKey in window[k]) ==> r.error == TypeError
  {
    if exists k :: 0 <= k < |window| && ReadingKey !in window[k] then Err(KeyError)
    else if exists k :: 0 <= k < |window| && window[k][ReadingKey].Str? then Err(TypeError)
    else Ok(Numbers(window))
  }

  /** The forecast series: the baseline plus one noise draw per step. */
  function Series(baseline: real, horizon: nat, noise: seq<real>): (series: seq<real>)
    requires horizon <= |noise|
  {
    seq(horizon, i requires 0 <= i < horizon => baseline + noise[i])
  }

  /** `forecast_next_day(records, horizon)`. For records, a positive horizon
      and numeric readings in the last `min(horizon, |records|)` records, the
      series has `horizon` points and the quantiles are those of the
      series (`ForecastOutcome` gives the points). No records give
      the empty result; a horizon of 0 or less fails (`IndexError` once the
      empty series reaches the quantiles, or `ZeroDivisionError` first when
      the slice is empty), and so do missing or textual readings. */
  function ForecastNextDay(records: seq<Record>, horizon: int, noise: seq<real>): (r: Result<Forecast>)
    requires horizon <= |noise|
    ensures |records| == 0 ==> r == Ok(NoRecords)
    ensures r.Ok? && r.value.Forecast? ==> |r.value.series| == horizon
    ensures r.Ok? && r.value.Forecast? ==> NaiveQuantiles(r.value.series) == Ok(r.value.quantiles)
  {
    if |records| == 0 then Ok(NoRecords)
    else
      var lastDay := LastDay(records, horizon);
      match Readings(lastDay)
      case Err(e) => Err(e)
      case Ok(vals) =>
        if |vals| == 0 then Err(ZeroDivisionError)
        else
          var avg := Stats.Average(vals);
          var series := Series(avg, if horizon < 0 then 0 else horizon, noise);
          match NaiveQuantiles(series)
          case Err(e) => Err(e)
          case Ok(q) => Ok(Forecast(q, series))
  }

  /** For at least one record the forecast succeeds exactly when the
      horizon is positive and the last `min(horizon, |records|)` records all
      carry a number; then each point of the series is the mean of those
      numbers plus its noise draw. */
  lemma ForecastOutcome(records: seq<Record>, horizon: int, noise: seq<real>)
    requires horizon <= |noise|
    requires |records| > 0
    ensures var r := ForecastNextDay(records, horizon, noise);
      r.Ok? <==> horizon >= 1 && Numeric(LastDay(records, horizon))
    ensures var r := ForecastNextDay(records, horizon, noise);
      r.Ok? ==>
        && horizon >= 1
        && r.value.Forecast?
        && forall i :: 0 <= i < horizon ==>
             r.value.series[i] == Stats.Average(Numbers(LastDay(records, horizon))) + noise[i]
  {
  }


  /** A horizon of 0 or less always fails. When it drops every record,
      `sum([]) / len([])` raises `ZeroDivisionError`. Otherwise numeric
      readings get as far as the empty series, where `naive_quantiles`
      raises `IndexError`. */
  lemma ForecastNonPositiveHorizon(records: seq<Record>, horizon: int, noise: seq<real>)
    requires horizon <= |noise|
    requires |records| > 0 && horizon <= 0
    ensures var r := ForecastNextDay(records, horizon, noise);
      r.Err?
    ensures var r := ForecastNextDay(records, horizon, noise);
      horizon <= -|records| ==> r == Err(ZeroDivisionError)
    ensures var r := ForecastNextDay(records, horizon, noise);
      horizon > -|records| && Numeric(LastDay(records, horizon)) ==> r == Err(IndexError)
  {
  }

  /** A baseline plus zero noise is the baseline. */
  lemma FlatSeries(series: seq<real>, baseline: real, noise: seq<real>)
    requires |series| <= |noise|
    requires forall i :: 0 <= i < |series| ==> series[i] == baseline + noise[i]
    requires forall i :: 0 <= i < |noise| ==> noise[i] == 0.0
    ensures forall i :: 0 <= i < |series| ==> series[i] == baseline
  {
  }

  /** Without noise the forecast is flat: every point and every quantile is
      the mean of the last readings. */
  lemma ForecastWithoutNoise(records: seq<Record>, horizon: int, noise: seq<real>)
    requires horizon <= |noise|
    requires forall i :: 0 <= i < |noise| ==> noise[i] == 0.0
    requires |records| > 0 && horizon >= 1
    requires Numeric(LastDay(records, horizon))
    ensures var r := ForecastNextDay(records, horizon, noise);
            var avg := Stats.Average(Numbers(LastDay(records, horizon)));
      && r.Ok? && r.value.Forecast?
      && r.value.quantiles == Quantiles(avg, avg, avg)
      && |r.value.series| == horizon
      && forall i :: 0 <= i < horizon ==> r.value.series[i] == avg
  {
    var avg := Stats.Average(Numbers(LastDay(records, horizon)));
    ForecastOutcome(records, horizon, noise);
    var r := ForecastNextDay(records, horizon, noise);
    var series := r.value.series;
    FlatSeries(series, avg, noise);
    QuantilesOfConstant(series, avg);
  }
}
