# Forecasting core: ingestion windows and series statistics

A Dafny model of the computational core of a small electricity-forecasting
repository. The model covers three parts.

- **Ingestion** (`data_ingestion/ingest_openelectricity.py`). The client
  fetches network data from the OpenElectricity API. It splits a date range
  into windows of at most `MAX_API_DAY` (7) days, one request per window, and
  concatenates the answers. `fetch_latest_7days` and `fetch_last_365_days`
  are the two convenience ranges that end at today's UTC midnight.
- **Series helpers** (`src/ai_review_test.py`):
  - CSV parsing into header-keyed rows;
  - lenient float coercion;
  - per-day totals of timestamped readings;
  - a trailing moving average;
  - P10/P50/P90 quantile picks;
  - a naive "next day" forecast: the recent mean plus Gaussian noise.
- **Statistics** (`src/dummy_test.py`): mean and population variance.

Python exceptions become the `Err` side of `Wrappers.Result`:
`KeyError`, `TypeError`, `IndexError`, `ZeroDivisionError` and `ValueError`.
Python numbers are exact reals. Instants are whole seconds.

Modules, one file each:

| file | module | models |
|---|---|---|
| `wrappers.dfy` | `Wrappers` | `Option`, `Result`, the Python error kinds |
| `text.dfy` | `Text` | `str.strip`, `str.split` for a one-character separator, and their laws |
| `stats.dfy` | `Stats` | `calculate_average`, `calculate_variance` |
| `csv.dfy` | `Csv` | `parse_csv_lines` |
| `records.dfy` | `Records` | dict records, `to_float` |
| `aggregation.dfy` | `Aggregation` | `compute_daily_totals`, `moving_average` |
| `demo.dfy` | `Demo` | the daily-totals demonstration in `main` |
| `quantiles.dfy` | `Quantiles` | insertion sort as the reference `sorted`, `naive_quantiles` |
| `forecast.dfy` | `Forecast` | `forecast_next_day` |
| `ints.dfy` | `Ints` | `min` on integers |
| `ingest.dfy` | `Ingest` | `fetch_data`, `fetch_latest_7days`, `fetch_last_365_days` |

## Model

| member | source | states |
|---|---|---|
| Text.Strip | src/ai_review_test.py:14 | The stripped line neither starts nor ends with a white-space character. |
| Text.StripInfix | src/ai_review_test.py:14 | What `strip` keeps is a contiguous infix of the line, and everything it drops on either side is white space. |
| Text.StripEmptyIffAllSpace | src/ai_review_test.py:14-16 | A line is skipped as blank exactly when every character of it is white space. |
| Text.StripIdempotent | src/ai_review_test.py:14 | Stripping an already stripped line changes nothing. |
| Text.Split | src/ai_review_test.py:17 | `split` yields one more piece than there are separators, and no piece contains the separator. |
| Text.JoinSplit | src/ai_review_test.py:17 | Splitting loses nothing: joining the pieces with the separator gives back the line. |
| Text.SplitJoin | src/ai_review_test.py:17 | Pieces free of the separator, once joined, split back into exactly those pieces. |
| Text.SplitOfThree | src/ai_review_test.py:17 | A line of three cells free of the separator splits into exactly those three cells. |
| Text.SplitHead | src/ai_review_test.py:46-49 | The first piece is the prefix up to the first separator, or the whole string when there is none. |
| Csv.RowUpToCells | src/ai_review_test.py:21-27 | After the first `k` assignments, each header holds the cell of its last position so far, or `""` when the line is short of cells. |
| Csv.MakeRow | src/ai_review_test.py:21-27 | A row's keys are exactly the header fields. A repeated header keeps the cell of its last occurrence. Missing cells read as `""` and surplus cells are dropped. |
| Csv.NonBlankTrimmed | src/ai_review_test.py:13-17 | Every line the parser keeps is non-empty and has no white space at either end. |
| Csv.NonBlankOfTrimmed | src/ai_review_test.py:13-16 | Lines that are all non-empty and have no white space at either end are kept as they are, in order. |
| Csv.ParseCsvLines | src/ai_review_test.py:10-29 | The first non-blank line supplies the headers. Each later non-blank line gives exactly one row, in order, built from its own cells. Blank lines give nothing. |
| Aggregation.DayKeyPrefix | src/ai_review_test.py:46-49 | The day key is the timestamp's prefix before its first `T`. Without a `T` it is the prefix before the first space, or the whole timestamp. |
| Aggregation.DaysOccur | src/ai_review_test.py:41-51 | A day is a key of the totals exactly when some non-skipped record falls on it. |
| Aggregation.DayTotalOutside | src/ai_review_test.py:51 | A day on which no record falls totals zero, as `totals.get(day, 0)` starts it. |
| Aggregation.SkipBlankTimestamp | src/ai_review_test.py:42-44 | A record whose timestamp is missing or `""` is skipped. It adds no day, changes no day's total, and cannot cause the `TypeError`. |
| Aggregation.ReadingOfRow | src/ai_review_test.py:32-36 | For a parsed CSV row, the reading is what the parser makes of the cell. Unparseable text and a missing column read as 0.0, as `to_float`'s fallback and `r.get(value_key, 0)` give. |
| Aggregation.CsvRecordsHaveTextTimestamps | src/ai_review_test.py:10-29 | Rows from `parse_csv_lines` carry only text, so `compute_daily_totals` never raises `TypeError` on them. |
| Aggregation.DayKeyOfIso | src/ai_review_test.py:46-47 | An ISO timestamp `<date>T<time>` with a `T`-free date falls on `<date>`. |
| Demo.MainLinesKept | src/ai_review_test.py:13-16 | None of the six CSV lines in `main` is blank or padded with white space, so the parser keeps all six unchanged. |
| Demo.MainLineRecord | src/ai_review_test.py:109-114 | Under the header line, each of the five data lines in `main` splits into three cells and becomes the record with that timestamp, reading and asset. |
| Demo.MainRows | src/ai_review_test.py:108-117 | Whatever rows `parse_csv_lines` returns for the CSV text in `main`, read as records, they are exactly the five records of the demonstration. |
| Demo.MainDays | src/ai_review_test.py:108-118 | The parsed records in `main` have text timestamps, on exactly the days 2026-01-01 and 2026-01-02. |
| Demo.MainDailyTotals | src/ai_review_test.py:108-118 | In `main` the unparseable reading counts 0. The totals are 1040.0 for 2026-01-01 and 1015.0 for 2026-01-02. |
| Demo.MainTotals | src/ai_review_test.py:106-118 | From the CSV text to the daily totals, `main` computes `{"2026-01-01": 1040.0, "2026-01-02": 1015.0}`, given a `float` that reads the four numbers and rejects `not_a_number`. |
| Aggregation.ComputeDailyTotals | src/ai_review_test.py:39-52 | The keys are exactly the days that occur. Each day maps to the sum of its readings, with missing or unparseable readings counting 0. Records without a timestamp are skipped. A numeric timestamp raises `TypeError`, and only then does the call fail. |
| Aggregation.RangeSum | src/ai_review_test.py:61-65 | The inner loop leaves the sum and the count of the window `values[start..i+1]`, or 0 and 0 for an empty range. |
| Aggregation.MovingAverage | src/ai_review_test.py:55-67 | There is one output per input. Each is the mean of the at most `window` values ending there, shorter at the front, and 0.0 when the window is empty. |
| Aggregation.MovingAverageWindowOne | src/ai_review_test.py:55-67 | With a window of one, the moving average reproduces its input. |
| Aggregation.MovingAverageBounds | src/ai_review_test.py:55-67 | For a window of at least one, every moving average lies within any bounds of the input values. |
| Aggregation.MovingAverageExample | src/ai_review_test.py:55-67 | With window 2, `[1, 2, 3, 4]` averages to `[1.0, 1.5, 2.5, 3.5]`. |
| Quantiles.Sort | src/ai_review_test.py:72 | `sorted` returns an ascending permutation of its input. |
| Quantiles.SortedUnique | src/ai_review_test.py:72 | Two ascending sequences with the same elements are equal, so any correct sort agrees with `sorted`. |
| Quantiles.PickIndex | src/ai_review_test.py:74-76 | `int(p * (n - 1))` for `p` in tenths is always a valid index of the `n` sorted values. |
| Quantiles.NaiveQuantiles | src/ai_review_test.py:70-77 | An empty input fails with `IndexError`. Otherwise each pick is one of the input values, and P10 <= P50 <= P90. |
| Quantiles.QuantilesIgnoreOrder | src/ai_review_test.py:70-77 | The quantiles depend only on the multiset of values, not on their order. |
| Quantiles.QuantilesOfConstant | src/ai_review_test.py:70-77 | If all values are equal, every quantile is that value. |
| Quantiles.QuantilesOfSorted | src/ai_review_test.py:72-77 | On sorted input the picks are read directly at indices `int(p * (n - 1))`. |
| Quantiles.QuantilesOfOneToTen | src/ai_review_test.py:70-77 | For 1..10 the picks are 1, 5 and 9. |
| Forecast.TailStart | src/ai_review_test.py:95 | This is where the slice `records[-h:]` begins. A positive `h` keeps the last `min(h, n)` records. A non-positive `h` drops the first `-h` records. |
| Forecast.LastDay | src/ai_review_test.py:95 | For a positive horizon the last day is the final `min(horizon, n)` records. |
| Forecast.Readings | src/ai_review_test.py:96-97 | The readings are collected exactly when every record has a numeric `mw`. A missing key raises `KeyError` first. Otherwise a text value raises `TypeError` in `sum`. |
| Forecast.ForecastNextDay | src/ai_review_test.py:91-103 | No records give the empty result. A successful forecast has `horizon` points, and its quantiles are the series' own. |
| Forecast.ForecastOutcome | src/ai_review_test.py:93-101 | With records present, the forecast succeeds exactly when the horizon is positive and the last day's readings are all numeric. Then point `i` is the last day's mean plus noise draw `i`. |
| Forecast.ForecastNonPositiveHorizon | src/ai_review_test.py:95-102 | With records present, a horizon of 0 or less always fails. It is `ZeroDivisionError` when the slice `records[-horizon:]` is empty. Otherwise, with numeric readings, it is `IndexError` from the quantiles of the empty series. |
| Forecast.ForecastWithoutNoise | src/ai_review_test.py:91-103 | With zero noise the series is flat at the last day's mean, and so are all three quantiles. |
| Stats.Average | src/dummy_test.py:1-5 | The mean, counted once per value, makes up the total. |
| Stats.CalculateAverage | src/dummy_test.py:1-5 | An empty input fails with `ZeroDivisionError`. Otherwise the result times the count is the sum. |
| Stats.AverageBounds | src/dummy_test.py:1-5 | The mean lies within any bounds of the values. |
| Stats.AverageOfOneToFive | src/dummy_test.py:9-10 | The average of 1..5 is 3. |
| Stats.Variance | src/dummy_test.py:14-23 | The variance is never negative. |
| Stats.SquaredDeviationsZero | src/dummy_test.py:19-21 | The squared deviations sum to zero exactly when every value equals the centre. |
| Stats.VarianceZeroIffConstant | src/dummy_test.py:14-23 | The variance is zero exactly when all values are equal, including the empty input. |
| Ingest.Windows | data_ingestion/ingest_openelectricity.py:56-60 | The inner loop issues no request exactly when the range is empty. |
| Ingest.WindowsValid | data_ingestion/ingest_openelectricity.py:56-73 | The windows are non-empty and at most 7 days long. They are contiguous, the first starts at the range start, and the last ends at the range end. |
| Ingest.WindowCount | data_ingestion/ingest_openelectricity.py:56-73 | A non-empty range takes `ceil(length / 7 days)` requests. |
| Ingest.WindowAt | data_ingestion/ingest_openelectricity.py:57-60 | Window `k` starts `k` full weeks after the range start and ends one week later or at the range end. |
| Ingest.WindowsCover | data_ingestion/ingest_openelectricity.py:56-73 | An instant lies in some window exactly when it lies in the requested range. |
| Ingest.WindowsDisjoint | data_ingestion/ingest_openelectricity.py:56-73 | No instant is requested twice. |
| Ingest.WalkWindows | data_ingestion/ingest_openelectricity.py:56-73 | One network issues one call per window, in order. The responses are kept in call order, and the cursor stops at the range end. |
| Ingest.FetchData | data_ingestion/ingest_openelectricity.py:41-78 | As written, only the first network is requested, over every window. The result concatenates the responses in call order. An empty range gives an empty result. An empty network list fails with `ValueError`. |
| Ingest.ChunkedFetchIsWholeFetch | data_ingestion/ingest_openelectricity.py:56-78 | If the source answers split ranges consistently, the windowed loop returns what one unbounded request would. |
| Ingest.CursorSharedAcrossNetworks | data_ingestion/ingest_openelectricity.py:53-54 | Ten days over `NEM` and `WEM` make two calls as written, both for `NEM`. Per network there are four calls, the last two for `WEM`. |
| Ingest.PerNetworkLog | data_ingestion/ingest_openelectricity.py:54-73 | Walking each network separately makes `networks × windows` calls. |
| Ingest.PerNetworkLogAt | data_ingestion/ingest_openelectricity.py:54-73 | Network `n`'s call for window `k` sits at position `n * windows + k`, so every network is asked for every window. |
| Ingest.FetchDataPerNetwork | data_ingestion/ingest_openelectricity.py:41-78 | With the cursor reset for each network, every network walks every window. The result concatenates all responses. An empty network list fails with `ValueError`. |
| Ingest.Midnight | data_ingestion/ingest_openelectricity.py:81-83 | The end date is the start of the UTC day containing `now`. |
| Ingest.FetchLatest7Days | data_ingestion/ingest_openelectricity.py:80-86 | As written, only the first network is asked, in a single call for exactly the seven days before today's midnight. The result is that one response. No networks give `ValueError`. |
| Ingest.FetchLatest7DaysPerNetwork | data_ingestion/ingest_openelectricity.py:80-86 | On the corrected loop, each network is asked once, for exactly the seven days before today's midnight. |
| Ingest.YearWindows | data_ingestion/ingest_openelectricity.py:88-94 | The year before midnight splits into 53 windows: 52 full weeks, then the single last day. |
| Ingest.FetchLast365Days | data_ingestion/ingest_openelectricity.py:88-94 | As written, the first network alone is asked for the 53 windows of the year before today's midnight. The last window is the single day before midnight. The result concatenates the responses. |
| Ingest.FetchLast365DaysPerNetwork | data_ingestion/ingest_openelectricity.py:88-94 | On the corrected loop, each network is asked for the 53 windows of the year, network after network. |

## Left out

- The OpenElectricity client, HTTP, API keys and `SDKConfig` are not modelled. `get_network_data` is the function parameter `fetch`.
- The metrics, interval and grouping arguments are not modelled. They pass through unchanged, so they are folded into `fetch`.
- The database and storage functions of the ingestion file are not modelled. They are I/O, outside the core.
- Logging, environment variables, `print` and `json` output are not modelled. They only produce output. The `main` of the ingestion file is left out for the same reason.
- In the `main` of src/ai_review_test.py, only the daily totals of the CSV text are modelled, by `Demo`. The rest of that `main` runs on random data from `generate_fake_timeseries`.
- pandas is reduced to plain sequences. A `DataFrame` is the sequence of its records, and `pd.concat` is `Ingest.Flatten`. An empty list given to `pd.concat` is `ValueError`.
- The clock is a parameter. `datetime.utcnow()` is the parameter `now`, and datetimes are whole seconds with no sub-second part.
- Randomness is a parameter. `random.gauss(0, 50)` is the sequence `noise`, one draw per forecast step.
- `generate_fake_timeseries` is not modelled. It only produces random demo data.
- Forecast.ForecastNextDay: requires at least `horizon` noise draws, because the noise sequence stands in for an unbounded random stream.
- Records.ToFloat: Python's `float(str)` is the abstract parameter `parse`. Float parsing and IEEE rounding are not modelled, and all arithmetic is exact.
- Quantiles.PickIndex: computes `int(p * (n - 1))` exactly in tenths, where Python multiplies binary doubles. The double 0.5 is exact, and the doubles nearest 0.1 and 0.9 lie just above those decimals. So the double product never drops below an integer the exact product reaches, and for any realistic `n` it stays less than a tenth above the exact product. The two indices therefore agree. Floating-point rounding itself is not modelled.
- Csv.ParseCsvLines: the separator is a single character. `str.split` with a longer separator is not modelled.
- Stats.Variance: returns 0.0 for the empty input. Python returns the integer 0, and the two compare equal.
- Aggregation.ComputeDailyTotals: a numeric timestamp is treated as raising `TypeError`. Other Python types that would pass the `in` test (lists, dicts) are not values of the record model.
- `get_network_data` and `OEClient` never fail in the model. `fetch` is a total function, so an exception that would propagate out of `fetch_data` is not modelled. The source has no retry and fails fast.
- Default arguments are not modelled. The caller passes every argument: `network_code=["NEM", "WEM"]`, `horizon_points=288`, `date_key="ts"`, `value_key="mw"` and `sep=","`. The `main` demonstration is stated with the defaults written out.
- Python dicts are Dafny maps, which have no order. The insertion order of the daily totals and of a row's keys is not modelled.

## Findings

| source | as written | input that shows it | evidently intended | confidence | as-written member | corrected member |
|---|---|---|---|---|---|---|
| data_ingestion/ingest_openelectricity.py:53 | `current_start = start_date` runs once, before the network loop. The first network leaves the cursor at `end_date`, so every later network makes no request. | `fetch_data` over 10 days with `network_code=["NEM", "WEM"]` makes 2 calls, both for `NEM`. `WEM` is never requested. | Reset the cursor for each network. Each of the two networks then makes 2 calls, 4 in all. | high (not executed) | Ingest.FetchData, Ingest.CursorSharedAcrossNetworks, Ingest.FetchLatest7Days, Ingest.FetchLast365Days | Ingest.FetchDataPerNetwork, Ingest.PerNetworkLogAt, Ingest.FetchLatest7DaysPerNetwork, Ingest.FetchLast365DaysPerNetwork |
