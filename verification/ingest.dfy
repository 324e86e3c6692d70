/** The windowed fetch loop of `ForecastingCoreClient`
    (data_ingestion/ingest_openelectricity.py). Instants are whole seconds;
    the remote client's `get_network_data` is the parameter `fetch`, which
    returns the records of one network over one half-open window (the
    metrics, interval and grouping arguments are passed through unchanged and
    are folded into `fetch`). */
module Ingest {
  import opened Wrappers
  import opened Ints

  const SecondsPerDay: int := 86400

  /** `MAX_API_DAY`: the longest range, in days, one request may cover. */
  const MaxApiDay: int := 7

  /** `timedelta(MAX_API_DAY)` in seconds. */
  const MaxWindow: int := MaxApiDay * SecondsPerDay

  /** A half-open request range `[start, end)`. */
  datatype Window = Window(start: int, end: int)

  /** One `get_network_data` call: the network code and the range. */
  datatype Call = Call(network: string, window: Window)

  /** The remote data source: the records of a network over `[start, end)`. */
  type Fetch<R> = (string, int, int) -> seq<R>

  /** `min(current_start + timedelta(days=MAX_API_DAY), end_date)`: where the
      window opened at `s` closes. */
  function WindowEnd(s: int, e: int): int
  {
    if s + MaxWindow < e then s + MaxWindow else e
  }

  /** The windows the inner loop walks through from `s` to `e`: each starts
      where the cursor stands and ends `MAX_API_DAY` days later or at `e`,
      whichever comes first. There are none exactly when `s >= e`. */
  function Windows(s: int, e: int): (ws: seq<Window>)
    ensures |ws| == 0 <==> s >= e
    decreases e - s
  {
    if s < e then
      var next := WindowEnd(s, e);
      [Window(s, next)] + Windows(next, e)
    else []
  }

  /** Over a range of at least one window, the first window followed by the
      rest. */
  lemma WindowsUnfold(s: int, e: int)
    requires s < e
    ensures var next := WindowEnd(s, e);
      Windows(s, e) == [Window(s, next)] + Windows(next, e)
  {
  }

  /** The windows are non-empty, at most `MAX_API_DAY` days long and
      contiguous, the first starting at `s` and the last ending at `e`. */
  lemma {:induction false} WindowsValid(s: int, e: int)
    ensures var ws := Windows(s, e);
      && (s < e ==> ws[0].start == s && ws[|ws| - 1].end == e)
      && (forall k :: 0 <= k < |ws| ==> ws[k].start < ws[k].end <= ws[k].start + MaxWindow)
      && (forall j, k :: 0 <= j < k < |ws| && k == j + 1 ==> ws[j].end == ws[k].start)
    decreases e - s
  {
    if s < e {
      var next := WindowEnd(s, e);
      WindowsUnfold(s, e);
      WindowsValid(next, e);
      var ws := Windows(s, e);
      var rest := Windows(next, e);
      assert forall k :: 1 <= k < |ws| ==> ws[k] == rest[k - 1];
      forall j, k | 0 <= j < k < |ws| && k == j + 1
        ensures ws[j].end == ws[k].start
      {
        if j > 0 {
          assert ws[j] == rest[j - 1] && ws[k] == rest[k - 1];
        }
      }
    }
  }

  /** `ceil((e - s) / MAX_API_DAY days)` windows for a non-empty range: one
      fewer window would fall short of the range, and these reach it. */
  lemma {:induction false} WindowCount(s: int, e: int)
    requires s < e
    ensures (|Windows(s, e)| - 1) * MaxWindow < e - s <= |Windows(s, e)| * MaxWindow
    decreases e - s
  {
    WindowsUnfold(s, e);
    if s + MaxWindow < e {
      WindowCount(s + MaxWindow, e);
    } else {
      assert Windows(e, e) == [];
    }
  }

  /** Closed form of the `k`-th window: it starts `k` full windows after `s`
      and ends one full window later or at `e`. */
  lemma {:induction false} WindowAt(s: int, e: int, k: nat)
    requires k < |Windows(s, e)|
    ensures Windows(s, e)[k] == Window(s + k * MaxWindow, Min(s + (k + 1) * MaxWindow, e))
    decreases k
  {
    if k > 0 {
      var next := WindowEnd(s, e);
      assert Windows(s, e)[k] == Windows(next, e)[k - 1];
      WindowAt(next, e, k - 1);
      assert next == s + MaxWindow;
    }
  }


  /** Every instant of `[s, e)` lies in some window, and no instant outside
      it lies in any. */
  lemma {:induction false} WindowsCover(s: int, e: int, t: int)
    ensures s <= t < e <==> exists k :: 0 <= k < |Windows(s, e)| && Windows(s, e)[k].start <= t < Windows(s, e)[k].end
    decreases e - s
  {
    var ws := Windows(s, e);
    if s < e {
      var next := WindowEnd(s, e);
      WindowsUnfold(s, e);
      var rest := Windows(next, e);
      WindowsCover(next, e, t);
      if s <= t < e {
        if t < next {
          assert ws[0].start <= t < ws[0].end;
        } else {
          var k :| 0 <= k < |rest| && rest[k].start <= t < rest[k].end;
          assert ws[k + 1] == rest[k];
        }
      }
      if exists k :: 0 <= k < |ws| && ws[k].start <= t < ws[k].end {
        var k :| 0 <= k < |ws| && ws[k].start <= t < ws[k].end;
        if k > 0 {
          assert ws[k] == rest[k - 1];
        }
      }
    }
  }

  /** No instant lies in two windows. */
  lemma {:induction false} WindowsDisjoint(s: int, e: int, t: int)
    ensures forall j, k ::
              (&& 0 <= j < |Windows(s, e)| && 0 <= k < |Windows(s, e)|
               && Windows(s, e)[j].start <= t < Windows(s, e)[j].end
               && Windows(s, e)[k].start <= t < Windows(s, e)[k].end) ==> j == k
    decreases e - s
  {
    var ws := Windows(s, e);
    if s < e {
      var next := WindowEnd(s, e);
      WindowsUnfold(s, e);
      var rest := Windows(next, e);
      WindowsDisjoint(next, e, t);
      WindowsStartAfter(next, e);
      forall j, k | 0 <= j < |ws| && 0 <= k < |ws|
          && ws[j].start <= t < ws[j].end && ws[k].start <= t < ws[k].end
        ensures j == k
      {
        if j > 0 { assert ws[j] == rest[j - 1]; }
        if k > 0 { assert ws[k] == rest[k - 1]; }
      }
    }
  }

  /** No window of `[s, e)` starts before `s`. */
  lemma {:induction false} WindowsStartAfter(s: int, e: int)
    ensures forall k :: 0 <= k < |Windows(s, e)| ==> s <= Windows(s, e)[k].start
    decreases e - s
  {
    if s < e {
      var next := WindowEnd(s, e);
      WindowsStartAfter(next, e);
      assert forall k :: 1 <= k < |Windows(s, e)| ==> Windows(s, e)[k] == Windows(next, e)[k - 1];
    }
  }

  /** The calls issued for one network over a list of windows. */
  function CallLog(network: string, ws: seq<Window>): (calls: seq<Call>)
    ensures |calls| == |ws|
    ensures forall k :: 0 <= k < |ws| ==> calls[k] == Call(network, ws[k])
  {
    seq(|ws|, k requires 0 <= k < |ws| => Call(network, ws[k]))
  }

  /** What the remote source answers to each call, in call order. */
  function Responses<R>(fetch: Fetch<R>, calls: seq<Call>): (frames: seq<seq<R>>)
    ensures |frames| == |calls|
    ensures forall k :: 0 <= k < |calls| ==>
              frames[k] == fetch(calls[k].network, calls[k].window.start, calls[k].window.end)
  {
    seq(|calls|, k requires 0 <= k < |calls| =>
      fetch(calls[k].network, calls[k].window.start, calls[k].window.end))
  }

  /** `pd.concat(frames, ignore_index=True)`: the frames one after another. */
  function Flatten<R>(frames: seq<seq<R>>): seq<R>
  {
    if |frames| == 0 then [] else frames[0] + Flatten(frames[1..])
  }

  lemma {:induction false} FlattenAppend<R>(frames: seq<seq<R>>, last: seq<R>)
    ensures Flatten(frames + [last]) == Flatten(frames) + last
    decreases |frames|
  {
    if |frames| == 0 {
      assert [last][1..] == [];
    } else {
      assert (frames + [last])[1..] == frames[1..] + [last];
      FlattenAppend(frames[1..], last);
    }
  }

  /** The responses to two runs of calls are the responses to each. */
  lemma ResponsesConcat<R>(fetch: Fetch<R>, calls: seq<Call>, more: seq<Call>)
    ensures Responses(fetch, calls + more) == Responses(fetch, calls) + Responses(fetch, more)
  {
  }

  /** One turn of the inner loop: the calls from the cursor on are the call
      for the current window followed by the calls from its end on. */
  lemma CallLogStep(network: string, s: int, e: int)
    requires s < e
    ensures var next := WindowEnd(s, e);
      CallLog(network, Windows(s, e))
      == [Call(network, Window(s, next))] + CallLog(network, Windows(next, e))
  {
    var next := WindowEnd(s, e);
    WindowsUnfold(s, e);
    assert CallLog(network, [Window(s, next)] + Windows(next, e))
           == [Call(network, Window(s, next))] + CallLog(network, Windows(next, e));
  }

  /** The inner loop's invariant survives one more call: the calls still to
      come from the cursor on lose their first, which joins those made. */
  lemma WalkStep(network: string, cursor: int, e: int, current: int, calls: seq<Call>)
    requires current < e
    requires CallLog(network, Windows(cursor, e)) == calls + CallLog(network, Windows(current, e))
    ensures var next := WindowEnd(current, e);
      CallLog(network, Windows(cursor, e))
      == (calls + [Call(network, Window(current, next))]) + CallLog(network, Windows(next, e))
  {
    CallLogStep(network, current, e);
    var c := Call(network, Window(current, WindowEnd(current, e)));
    var rest := CallLog(network, Windows(WindowEnd(current, e), e));
    assert calls + ([c] + rest) == (calls + [c]) + rest;
  }

  /** The inner `while current_start < end_date` loop of `fetch_data` for one
      network: one call per window from the cursor to `end_date`, the frames
      in call order, and the cursor left at `end_date` (or where it stood, if
      it was already there or past it). */
  method WalkWindows<R>(fetch: Fetch<R>, network: string, cursor: int, endDate: int)
    returns (frames: seq<seq<R>>, calls: seq<Call>, last: int)
    ensures calls == CallLog(network, Windows(cursor, endDate))
    ensures frames == Responses(fetch, calls)
    ensures last == if cursor < endDate then endDate else cursor
  {
    frames := [];
    calls := [];
    var currentStart := cursor;
    while currentStart < endDate
      invariant cursor < endDate ==> cursor <= currentStart <= endDate
      invariant cursor >= endDate ==> currentStart == cursor
      invariant CallLog(network, Windows(cursor, endDate))
                == calls + CallLog(network, Windows(currentStart, endDate))
      invariant frames == Responses(fetch, calls)
      decreases endDate - currentStart
    {
      var currentEnd := WindowEnd(currentStart, endDate);
      var response := fetch(network, currentStart, currentEnd);
      var c := Call(network, Window(currentStart, currentEnd));
      WalkStep(network, cursor, endDate, currentStart, calls);
      ResponsesConcat(fetch, calls, [c]);
      frames := frames + [response];
      calls := calls + [c];
      currentStart := currentEnd;
    }
    last := currentStart;
  }

  /** `fetch_data(start_date, end_date, network_code)` as written: the cursor
      `current_start` is set once, before the network loop, so the first
      network walks every window of the range and leaves the cursor at
      `end_date`; later networks see no window. The result is every response
      concatenated in call order; the early return for an empty `total_data`
      fires only when the range is empty, and an empty network list leaves
      `pd.concat` nothing to join (`ValueError`). */
  method FetchData<R>(fetch: Fetch<R>, startDate: int, endDate: int, networks: seq<string>)
    returns (data: Result<seq<R>>, calls: seq<Call>)
    ensures |networks| == 0 ==> data == Err(ValueError) && calls == []
    ensures |networks| > 0 ==> calls == CallLog(networks[0], Windows(startDate, endDate))
    ensures |networks| > 0 ==> data == Ok(Flatten(Responses(fetch, calls)))
    ensures forall k :: 0 <= k < |calls| ==> |networks| > 0 && calls[k].network == networks[0]
  {
    var totalData: seq<seq<R>> := [];
    calls := [];
    var currentStart := startDate;
    var n := 0;
    while n < |networks|
      invariant 0 <= n <= |networks|
      invariant n == 0 ==> currentStart == startDate && calls == []
      invariant n > 0 ==> startDate < endDate && currentStart == endDate
      invariant n > 0 ==> calls == CallLog(networks[0], Windows(startDate, endDate))
      invariant totalData == Responses(fetch, calls)
      invariant n > 0 ==> |totalData| > 0
    {
      var frames, more, cursor := WalkWindows(fetch, networks[n], currentStart, endDate);
      ResponsesConcat(fetch, calls, more);
      totalData := totalData + frames;
      calls := calls + more;
      currentStart := cursor;
      if |totalData| == 0 {
        return Ok([]), calls;
      }
      n := n + 1;
    }
    if |totalData| == 0 {
      data := Err(ValueError);
    } else {
      data := Ok(Flatten(totalData));
    }
  }

  /** If the source answers any split of a range with the answer for the
      whole range (its records are ordered and split by instant), then the
      windowed loop returns exactly what one unbounded request would. */
  lemma {:induction false} ChunkedFetchIsWholeFetch<R>(fetch: Fetch<R>, network: string, s: int, e: int)
    requires s < e
    requires forall a, b, c :: a < b < c ==> fetch(network, a, c) == fetch(network, a, b) + fetch(network, b, c)
    ensures Flatten(Responses(fetch, CallLog(network, Windows(s, e)))) == fetch(network, s, e)
    decreases e - s
  {
    var next := WindowEnd(s, e);
    WindowsUnfold(s, e);
    var frames := Responses(fetch, CallLog(network, Windows(s, e)));
    assert frames[0] == fetch(network, s, next);
    if next < e {
      ChunkedFetchIsWholeFetch(fetch, network, next, e);
      assert frames[1..] == Responses(fetch, CallLog(network, Windows(next, e)));
    } else {
      assert frames[1..] == [];
    }
  }

  /* ---------------------------------------------------------------------
     The cursor shared across networks, and the per-network loop
     --------------------------------------------------------------------- */

  /** The calls of a loop that walks every window once per network, networks
      in order. */
  function PerNetworkLog(networks: seq<string>, ws: seq<Window>): (calls: seq<Call>)
    ensures |calls| == |networks| * |ws|
  {
    if |networks| == 0 then []
    else
      var prev := PerNetworkLog(networks[..|networks| - 1], ws);
      assert |prev| + |ws| == (|networks| - 1) * |ws| + |ws| == |networks| * |ws|;
      prev + CallLog(networks[|networks| - 1], ws)
  }

  /** Call `k` of network `n` sits at position `n * |ws| + k`: every network
      is asked for every window. */
  lemma {:induction false} PerNetworkLogAt(networks: seq<string>, ws: seq<Window>, n: nat, k: nat)
    requires n < |networks| && k < |ws|
    ensures n * |ws| + k < |PerNetworkLog(networks, ws)|
    ensures PerNetworkLog(networks, ws)[n * |ws| + k] == Call(networks[n], ws[k])
    decreases |networks|
  {
    var m := |networks| - 1;
    var prev := PerNetworkLog(networks[..m], ws);
    assert |prev| == m * |ws|;
    if n < m {
      PerNetworkLogAt(networks[..m], ws, n, k);
      RowBefore(n, m, |ws|, k);
    } else {
      assert n * |ws| == |prev|;
    }
  }

  /** Position `k` of row `n` in a row-major layout of width `w` lies before
      row `m` when `n < m`. */
  lemma {:induction false} RowBefore(n: nat, m: nat, w: nat, k: nat)
    requires n < m && k < w
    ensures n * w + k < m * w
    decreases m
  {
    assert m * w == (m - 1) * w + w;
    if m > n + 1 {
      RowBefore(n, m - 1, w, k);
    }
  }

  /** `fetch_data` with `current_start = start_date` moved inside the network
      loop: every network walks every window, so there are
      `|networks| * ceil(days / MAX_API_DAY)` calls, network by network. An
      empty network list still fails in `pd.concat`. */
  method FetchDataPerNetwork<R>(fetch: Fetch<R>, startDate: int, endDate: int, networks: seq<string>)
    returns (data: Result<seq<R>>, calls: seq<Call>)
    ensures |networks| == 0 ==> data == Err(ValueError) && calls == []
    ensures |networks| > 0 ==> calls == PerNetworkLog(networks, Windows(startDate, endDate))
    ensures |networks| > 0 ==> data == Ok(Flatten(Responses(fetch, calls)))
    ensures |calls| == |networks| * |Windows(startDate, endDate)|
  {
    ghost var ws := Windows(startDate, endDate);
    var totalData: seq<seq<R>> := [];
    calls := [];
    var n := 0;
    while n < |networks|
      invariant 0 <= n <= |networks|
      invariant calls == PerNetworkLog(networks[..n], ws)
      invariant totalData == Responses(fetch, calls)
      invariant n > 0 ==> |totalData| > 0
    {
      var frames, more, _ := WalkWindows(fetch, networks[n], startDate, endDate);
      ResponsesConcat(fetch, calls, more);
      assert networks[..n + 1][..n] == networks[..n];
      totalData := totalData + frames;
      calls := calls + more;
      if |totalData| == 0 {
        EmptyPerNetworkLog(networks, ws);
        return Ok([]), calls;
      }
      n := n + 1;
    }
    assert networks[..n] == networks;
    if |totalData| == 0 {
      data := Err(ValueError);
    } else {
      data := Ok(Flatten(totalData));
    }
  }

  lemma {:induction false} EmptyPerNetworkLog(networks: seq<string>, ws: seq<Window>)
    requires ws == []
    ensures PerNetworkLog(networks, ws) == []
    decreases |networks|
  {
    if |networks| > 0 {
      EmptyPerNetworkLog(networks[..|networks| - 1], ws);
    }
  }

  /** As written, the ten-day range over `NEM` and `WEM` costs two calls, both
      for `NEM`, so `WEM` is never asked; walking each network separately
      costs four calls, the last two for `WEM`. */
  lemma CursorSharedAcrossNetworks()
    ensures var ws := Windows(0, 10 * SecondsPerDay);
      && CallLog("NEM", ws) == [Call("NEM", Window(0, MaxWindow)), Call("NEM", Window(MaxWindow, 10 * SecondsPerDay))]
      && PerNetworkLog(["NEM", "WEM"], ws)
         == CallLog("NEM", ws) + [Call("WEM", Window(0, MaxWindow)), Call("WEM", Window(MaxWindow, 10 * SecondsPerDay))]
  {
    var e := 10 * SecondsPerDay;
    WindowsUnfold(0, e);
    WindowsUnfold(MaxWindow, e);
    assert Windows(0, e) == [Window(0, MaxWindow), Window(MaxWindow, e)];
    assert ["NEM", "WEM"][..1] == ["NEM"];
    assert ["NEM"][..0] == [];
  }

  /* ---------------------------------------------------------------------
     Convenience entry points
     --------------------------------------------------------------------- */

  /** `utcnow().replace(hour=0, minute=0, second=0, microsecond=0)`: the
      start of the day containing `now`. */
  function Midnight(now: int): (m: int)
    ensures m % SecondsPerDay == 0
    ensures m <= now < m + SecondsPerDay
  {
    now - now % SecondsPerDay
  }

  /** `fetch_latest_7days` as written: the seven days before today's
      midnight fit one window, and only the first network is asked, once. */
  method FetchLatest7Days<R>(fetch: Fetch<R>, now: int, networks: seq<string>)
    returns (data: Result<seq<R>>, calls: seq<Call>)
    ensures |networks| == 0 ==> data == Err(ValueError) && calls == []
    ensures |networks| > 0 ==>
              calls == [Call(networks[0], Window(Midnight(now) - 7 * SecondsPerDay, Midnight(now)))]
    ensures |networks| > 0 ==>
              data == Ok(fetch(networks[0], Midnight(now) - 7 * SecondsPerDay, Midnight(now)))
  {
    var endDate := Midnight(now);
    var startDate := endDate - 7 * SecondsPerDay;
    data, calls := FetchData(fetch, startDate, endDate, networks);
    WindowsUnfold(startDate, endDate);
    assert Windows(startDate, endDate) == [Window(startDate, endDate)];
    if |networks| > 0 {
      var frames := Responses(fetch, calls);
      assert frames == [fetch(networks[0], startDate, endDate)];
      assert frames[1..] == [];
      assert Flatten(frames[1..]) == [];
      assert Flatten(frames) == frames[0] + [];
      assert Flatten(frames) == fetch(networks[0], startDate, endDate);
    }
  }

  /** `fetch_last_365_days` as written: the first network alone is asked for
      the 53 windows of the year before today's midnight, the last of them
      the single day before it. */
  method FetchLast365Days<R>(fetch: Fetch<R>, now: int, networks: seq<string>)
    returns (data: Result<seq<R>>, calls: seq<Call>)
    ensures |networks| == 0 ==> data == Err(ValueError) && calls == []
    ensures |networks| > 0 ==>
              calls == CallLog(networks[0], Windows(Midnight(now) - 365 * SecondsPerDay, Midnight(now)))
    ensures |networks| > 0 ==> |calls| == 53
    ensures |networks| > 0 ==> calls[52] == Call(networks[0], Window(Midnight(now) - SecondsPerDay, Midnight(now)))
    ensures forall k :: 0 <= k < |calls| ==> |networks| > 0 && calls[k].network == networks[0]
    ensures |networks| > 0 ==> data == Ok(Flatten(Responses(fetch, calls)))
  {
    var endDate := Midnight(now);
    var startDate := endDate - 365 * SecondsPerDay;
    data, calls := FetchData(fetch, startDate, endDate, networks);
    YearWindows(endDate);
  }

  /** `fetch_latest_7days` on the per-network loop: each network is asked
      once, for exactly the seven days before today's midnight. */
  method FetchLatest7DaysPerNetwork<R>(fetch: Fetch<R>, now: int, networks: seq<string>)
    returns (data: Result<seq<R>>, calls: seq<Call>)
    ensures |networks| == 0 ==> data == Err(ValueError)
    ensures |calls| == |networks|
    ensures forall n :: 0 <= n < |calls| ==>
              calls[n] == Call(networks[n], Window(Midnight(now) - 7 * SecondsPerDay, Midnight(now)))
    ensures |networks| > 0 ==> data == Ok(Flatten(Responses(fetch, calls)))
  {
    var endDate := Midnight(now);
    var startDate := endDate - 7 * SecondsPerDay;
    data, calls := FetchDataPerNetwork(fetch, startDate, endDate, networks);
    WindowsUnfold(startDate, endDate);
    var ws := Windows(startDate, endDate);
    assert ws == [Window(startDate, endDate)];
    forall n | 0 <= n < |calls|
      ensures calls[n] == Call(networks[n], Window(startDate, endDate))
    {
      PerNetworkLogAt(networks, ws, n, 0);
    }
  }

  /** The windows of the 365 days before midnight `m`: 53 of them, the first
      starting 365 days earlier, the first 52 a full week each and the last
      the single day before `m`. */
  lemma {:induction false} YearWindows(m: int)
    ensures var ws := Windows(m - 365 * SecondsPerDay, m);
      && |ws| == 53
      && ws[0].start == m - 365 * SecondsPerDay
      && (forall k :: 0 <= k < 52 ==> ws[k].end - ws[k].start == MaxWindow)
      && ws[52] == Window(m - SecondsPerDay, m)
  {
    var s := m - 365 * SecondsPerDay;
    WindowCount(s, m);
    forall k | 0 <= k < 52
      ensures Windows(s, m)[k].end - Windows(s, m)[k].start == MaxWindow
    {
      WindowAt(s, m, k);
    }
    WindowAt(s, m, 0);
    WindowAt(s, m, 52);
  }

  /** `fetch_last_365_days` on the per-network loop: each network is asked
      for the 53 windows of the year before today's midnight, networks one
      after another. */
  method FetchLast365DaysPerNetwork<R>(fetch: Fetch<R>, now: int, networks: seq<string>)
    returns (data: Result<seq<R>>, calls: seq<Call>)
    ensures |networks| == 0 ==> data == Err(ValueError)
    ensures |calls| == 53 * |networks|
    ensures calls == PerNetworkLog(networks, Windows(Midnight(now) - 365 * SecondsPerDay, Midnight(now)))
    ensures |networks| > 0 ==> data == Ok(Flatten(Responses(fetch, calls)))
  {
    var endDate := Midnight(now);
    var startDate := endDate - 365 * SecondsPerDay;
    data, calls := FetchDataPerNetwork(fetch, startDate, endDate, networks);
    YearWindows(endDate);
    if |networks| == 0 {
      assert PerNetworkLog(networks, Windows(startDate, endDate)) == [];
    }
  }
}
