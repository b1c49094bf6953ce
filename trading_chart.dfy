/**
 * The chart viewer of src/components/TradingChart.tsx, without the charting
 * library: the interval configuration, the row conversion applied to a
 * history response, and the state machine formed by `currentInterval`,
 * `loadingInterval`, the candlestick series' data and the one outstanding
 * `fetch`.
 *
 * The asynchronous `fetchData` is split at its `await`: `StartLoad` is what
 * runs before the request goes out, `Settle` is what runs when the response
 * (or its failure) arrives, in try/catch/finally order. The pure transition
 * functions are the specification; the class `ChartView` holds the same
 * state in fields and its methods are proved to follow them.
 */
module TradingChart {
  import opened Wrappers
  import IntervalButton

  // ---------------------------------------------------------------------
  // Configuration

  /** One selectable sampling period, in seconds, with its button caption (`label`). */
  datatype Interval = Interval(s: int, caption: string)

  /** `INTERVALS`, in toolbar order. */
  const Intervals: seq<Interval> :=
    [Interval(60, "1m"), Interval(300, "5m"), Interval(900, "15m"), Interval(1800, "30m"), Interval(14400, "4h")]

  /** The initial value of `currentInterval` (15 minutes). */
  const DefaultInterval: int := 900

  /** `s` is the period of one of the configured intervals. */
  predicate IsConfigured(s: int) {
    exists i :: 0 <= i < |Intervals| && Intervals[i].s == s
  }

  /** No two configured intervals share a period, and the default is one of them. */
  lemma IntervalsDistinct()
    ensures forall i, j :: 0 <= i < |Intervals| && 0 <= j < |Intervals| && Intervals[i].s == Intervals[j].s ==> i == j
    ensures IsConfigured(DefaultInterval)
  {
    assert Intervals[2].s == DefaultInterval;
  }

  // ---------------------------------------------------------------------
  // The history response and its conversion

  /**
   * One record of the history endpoint, with its numeric strings taken as
   * integers. The record carries both `time` and `timestamp`; the conversion
   * reads `time`.
   */
  datatype CandleRow = CandleRow(time: int, timestamp: int, open: int, high: int, low: int, close: int)

  /** One point handed to the series' `setData`: time in seconds, prices as given. */
  datatype Point = Point(time: int, open: int, high: int, low: int, close: int)

  /** A response body: an array of records, or something `response.json()` or `data.map` rejects. */
  datatype Body = Candles(rows: seq<CandleRow>) | Malformed

  /** What `fetch` delivers: a network failure, or a response with its status and body. */
  datatype Response = NetworkError | Http(status: int, body: Body)

  /** `response.ok`: the status is in the 2xx range. */
  predicate IsOk(status: int) {
    200 <= status <= 299
  }

  /** The rows the success path converts, or None when the `try` block throws before `setData`. */
  function Payload(r: Response): (rows: Option<seq<CandleRow>>)
    ensures rows.Some? <==> r.Http? && IsOk(r.status) && r.body.Candles?
    ensures rows.Some? ==> rows.value == r.body.rows
  {
    match r
    case NetworkError => None
    case Http(status, body) =>
      if !IsOk(status) then None
      else match body
        case Malformed => None
        case Candles(rows) => Some(rows)
  }

  /** One record converted: milliseconds floored to seconds, prices copied. */
  function ConvertRow(d: CandleRow): (p: Point)
    ensures p.time * 1000 <= d.time < p.time * 1000 + 1000
    ensures p.open == d.open && p.high == d.high && p.low == d.low && p.close == d.close
  {
    // Dafny's `/` with a positive divisor is floor division, as `Math.floor(x / 1000)` is.
    Point(d.time / 1000, d.open, d.high, d.low, d.close)
  }

  /** The `data.map` conversion: one point per record, in the same order. */
  function Convert(rows: seq<CandleRow>): (ps: seq<Point>)
    ensures |ps| == |rows|
    ensures forall i :: 0 <= i < |rows| ==> ps[i] == ConvertRow(rows[i])
  {
    if rows == [] then [] else [ConvertRow(rows[0])] + Convert(rows[1..])
  }

  /** The `timestamp` field plays no part: rows that differ only there convert alike. */
  lemma ConvertIgnoresTimestamp(a: seq<CandleRow>, b: seq<CandleRow>)
    requires |a| == |b|
    requires forall i :: 0 <= i < |a| ==> a[i].(timestamp := 0) == b[i].(timestamp := 0)
    ensures Convert(a) == Convert(b)
  {
    forall i | 0 <= i < |a| ensures Convert(a)[i] == Convert(b)[i] {
      assert a[i].time == b[i].time;
    }
  }

  /** Flooring to seconds is monotone. */
  lemma ConvertRowMonotone(a: CandleRow, b: CandleRow)
    requires a.time <= b.time
    ensures ConvertRow(a).time <= ConvertRow(b).time
  {
    var p, q := ConvertRow(a), ConvertRow(b);
    assert p.time * 1000 < q.time * 1000 + 1000;
  }

  /** Records in ascending time order give points in non-decreasing time order. */
  lemma ConvertKeepsOrder(rows: seq<CandleRow>, i: int, j: int)
    requires forall a, b :: 0 <= a <= b < |rows| ==> rows[a].time <= rows[b].time
    requires 0 <= i <= j < |rows|
    ensures Convert(rows)[i].time <= Convert(rows)[j].time
  {
    ConvertRowMonotone(rows[i], rows[j]);
  }

  /** Strictly ascending milliseconds need not give strictly ascending seconds. */
  lemma ConvertMergesWithinOneSecond()
    ensures var ps := Convert([CandleRow(1000, 0, 1, 1, 1, 1), CandleRow(1999, 0, 2, 2, 2, 2)]);
            ps[0].time == 1 && ps[1].time == 1
  {
  }

  // ---------------------------------------------------------------------
  // The state machine

  /** The component's state, as far as the model sees it. */
  datatype ChartState = ChartState(
    current: int,            // currentInterval
    loading: Option<int>,    // loadingInterval
    seriesAttached: bool,    // seriesRef.current is set
    data: seq<Point>,        // what the series last received through setData
    inFlight: Option<int>,   // the interval of the fetch awaiting its response
    fetches: seq<int>)       // every fetch issued, by its interval parameter, in order

  /** The state of the first render, before the mount effect runs. */
  function Initial(): (st: ChartState)
    ensures st.current == 900 && st.loading.None? && st.inFlight.None?
    ensures !st.seriesAttached && st.data == [] && st.fetches == []
    ensures Inv(st)
  {
    IntervalsDistinct();
    ChartState(DefaultInterval, None, false, [], None, [])
  }

  /** The first half of `fetchData`: mark the interval as loading and send the request. */
  function StartLoad(st: ChartState, s: int): (r: ChartState)
    ensures r.loading == Some(s) && r.inFlight == Some(s)
    ensures r.fetches == st.fetches + [s]
    ensures r.current == st.current && r.data == st.data && r.seriesAttached == st.seriesAttached
  {
    st.(loading := Some(s), inFlight := Some(s), fetches := st.fetches + [s])
  }

  /**
   * The mount effect. Without a container element it returns at once;
   * otherwise the series exists and a load of the current interval starts.
   */
  function Mount(containerPresent: bool): (st: ChartState)
    ensures st.current == 900 && st.data == []
    ensures containerPresent ==> st.seriesAttached && st.loading == Some(900) && st.inFlight == Some(900) && st.fetches == [900]
    ensures !containerPresent ==> !st.seriesAttached && st.loading.None? && st.inFlight.None? && st.fetches == []
  {
    if containerPresent then StartLoad(Initial().(seriesAttached := true), Initial().current) else Initial()
  }

  /** `handleIntervalChange`: a guarded request for interval `s`. */
  function IntervalChange(st: ChartState, s: int): (r: ChartState)
    // the interval already shown, or any interval while a load is pending: nothing changes, no fetch
    ensures s == st.current || st.loading.Some? ==> r == st
    // otherwise the new interval is current and loading before its data arrives
    ensures s != st.current && st.loading.None? ==>
              && r.current == s && r.loading == Some(s) && r.inFlight == Some(s)
              && r.fetches == st.fetches + [s]
              && r.data == st.data && r.seriesAttached == st.seriesAttached
  {
    if s != st.current && st.loading.None? then StartLoad(st.(current := s), s) else st
  }

  /** The second half of `fetchData`: the response arrives; `finally` clears the loading mark. */
  function Settle(st: ChartState, resp: Response): (r: ChartState)
    requires st.inFlight.Some?
    ensures r.loading.None? && r.inFlight.None?
    // the interval is not rolled back, whatever the outcome
    ensures r.current == st.current && r.fetches == st.fetches && r.seriesAttached == st.seriesAttached
    // a failure, or a missing series, leaves the data as it was
    ensures Payload(resp).None? || !st.seriesAttached ==> r.data == st.data
    // a success replaces the data by the converted rows, one point per row
    ensures Payload(resp).Some? && st.seriesAttached ==>
              r.data == Convert(Payload(resp).value) && |r.data| == |resp.body.rows|
  {
    var data :=
      match Payload(resp)
      case Some(rows) => if st.seriesAttached then Convert(rows) else st.data
      case None => st.data;
    st.(data := data, loading := None, inFlight := None)
  }

  /** What the component keeps true between events. */
  predicate Inv(st: ChartState) {
    && IsConfigured(st.current)
    && st.inFlight == st.loading
    && (st.loading.Some? ==> st.loading.value == st.current)
    && (st.inFlight.Some? ==> |st.fetches| > 0 && st.fetches[|st.fetches| - 1] == st.inFlight.value)
    && (!st.seriesAttached ==> st.data == [])
  }

  lemma MountInv(containerPresent: bool)
    ensures Inv(Mount(containerPresent))
  {
    IntervalsDistinct();
  }

  /** The events the component reacts to after mount. */
  datatype Event = Request(seconds: int) | Arrived(response: Response)

  /** One event. A response only arrives for a request in flight; any other is not an event of this component. */
  function Step(st: ChartState, e: Event): ChartState {
    match e
    case Request(s) => IntervalChange(st, s)
    case Arrived(resp) => if st.inFlight.Some? then Settle(st, resp) else st
  }

  /** The events in order. */
  function Run(st: ChartState, evs: seq<Event>): ChartState
    decreases |evs|
  {
    if evs == [] then st else Run(Step(st, evs[0]), evs[1..])
  }

  /** Every request comes from a toolbar button, so it names a configured interval. */
  predicate FromToolbar(evs: seq<Event>) {
    forall k :: 0 <= k < |evs| ==> evs[k].Request? ==> IsConfigured(evs[k].seconds)
  }

  lemma StepInv(st: ChartState, e: Event)
    requires Inv(st)
    requires e.Request? ==> IsConfigured(e.seconds)
    ensures Inv(Step(st, e))
  {
  }

  /** After any run of toolbar events the invariant still holds: in particular `currentInterval` is configured. */
  lemma {:induction false} RunInv(st: ChartState, evs: seq<Event>)
    requires Inv(st) && FromToolbar(evs)
    ensures Inv(Run(st, evs))
    decreases |evs|
  {
    if evs != [] {
      StepInv(st, evs[0]);
      assert FromToolbar(evs[1..]) by {
        forall k | 0 <= k < |evs[1..]| ensures evs[1..][k].Request? ==> IsConfigured(evs[1..][k].seconds) {
          assert evs[1..][k] == evs[k + 1];
        }
      }
      RunInv(Step(st, evs[0]), evs[1..]);
    }
  }

  /** A fetch goes out only when none is in flight: at most one request is ever outstanding. */
  lemma FetchOnlyWhenIdle(st: ChartState, e: Event)
    requires Inv(st)
    ensures Step(st, e).fetches != st.fetches ==>
              st.inFlight.None? && e.Request? && Step(st, e).fetches == st.fetches + [e.seconds]
  {
  }

  /** While a load is pending, any number of requests change nothing and issue no fetch. */
  lemma {:induction false} RequestsWhileLoading(st: ChartState, evs: seq<Event>)
    requires st.loading.Some?
    requires forall k :: 0 <= k < |evs| ==> evs[k].Request?
    ensures Run(st, evs) == st
    decreases |evs|
  {
    if evs != [] {
      assert Step(st, evs[0]) == st;
      RequestsWhileLoading(st, evs[1..]);
    }
  }

  /**
   * An accepted request followed by its response: the new interval stays
   * current, nothing is loading, and the data is the converted rows on
   * success and the previous data on failure.
   */
  lemma RequestThenArrive(st: ChartState, s: int, resp: Response)
    requires Inv(st) && st.seriesAttached && st.loading.None? && s != st.current
    ensures var r := Run(st, [Request(s), Arrived(resp)]);
            && r.current == s && r.loading.None?
            && r.fetches == st.fetches + [s]
            && r.data == (if Payload(resp).Some? then Convert(Payload(resp).value) else st.data)
  {
    var mid := IntervalChange(st, s);
    assert Run(st, [Request(s), Arrived(resp)]) == Run(mid, [Arrived(resp)]);
    assert Run(mid, [Arrived(resp)]) == Run(Settle(mid, resp), []);
  }

  /**
   * A request made while a load is pending is dropped, not queued: once the
   * pending response arrives the chart is still on the interval it was
   * loading, nothing loads any more, and the requested interval was never
   * fetched.
   */
  lemma SwitchDuringLoadIsDropped(st: ChartState, s: int, resp: Response)
    requires Inv(st) && st.loading.Some?
    ensures var r := Run(st, [Request(s), Arrived(resp)]);
            r.current == st.current && r.loading.None? && r.inFlight.None? && r.fetches == st.fetches
  {
    assert Run(st, [Request(s), Arrived(resp)]) == Run(st, [Arrived(resp)]);
    assert Run(st, [Arrived(resp)]) == Run(Settle(st, resp), []);
  }

  /** The instance at mount: a click on 1m during the first load leaves the chart on 15 minutes, with only 900 fetched. */
  lemma SwitchDuringMountLoadIsDropped(resp: Response)
    ensures var r := Run(Mount(true), [Request(60), Arrived(resp)]);
            r.current == 900 && r.loading.None? && r.fetches == [900]
  {
    MountInv(true);
    SwitchDuringLoadIsDropped(Mount(true), 60, resp);
  }

  // ---------------------------------------------------------------------
  // The toolbar

  /** The props the toolbar gives the button of the interval with period `s`. */
  function ToolbarProps(current: int, loading: Option<int>, s: int): (p: IntervalButton.Props)
    ensures p.isActive <==> current == s
    ensures p.isLoading <==> loading == Some(s)
    ensures p.variant.None? && !p.disabled
  {
    IntervalButton.Props(None, current == s, loading == Some(s), false)
  }

  /** The rendered toolbar: one button per configured interval, in order. */
  function Toolbar(current: int, loading: Option<int>): (bs: seq<IntervalButton.View>)
    ensures |bs| == |Intervals|
    ensures forall i :: 0 <= i < |bs| ==> bs[i] == IntervalButton.Render(ToolbarProps(current, loading, Intervals[i].s))
  {
    seq(|Intervals|, i requires 0 <= i < |Intervals| => IntervalButton.Render(ToolbarProps(current, loading, Intervals[i].s)))
  }

  /** Both flags compare against one value and the periods are distinct: at most one button is active, at most one loading. */
  lemma AtMostOneActiveOneLoading(current: int, loading: Option<int>)
    ensures forall i, j ::
              (0 <= i < |Intervals| && 0 <= j < |Intervals| &&
               ToolbarProps(current, loading, Intervals[i].s).isActive &&
               ToolbarProps(current, loading, Intervals[j].s).isActive) ==> i == j
    ensures forall i, j ::
              (0 <= i < |Intervals| && 0 <= j < |Intervals| &&
               ToolbarProps(current, loading, Intervals[i].s).isLoading &&
               ToolbarProps(current, loading, Intervals[j].s).isLoading) ==> i == j
  {
    IntervalsDistinct();
  }

  /**
   * What the toolbar shows in a reachable state: exactly one button, the
   * current interval's, stands out. It shows "active" when idle, and "loading"
   * and disabled while its data is pending; every other button shows
   * "default" and stays enabled (its click is then dropped by the guard).
   */
  lemma ToolbarInState(st: ChartState)
    requires Inv(st)
    ensures exists i :: 0 <= i < |Intervals| && Intervals[i].s == st.current
    ensures forall i :: 0 <= i < |Intervals| ==>
              var b := Toolbar(st.current, st.loading)[i];
              && b.variant == (if Intervals[i].s != st.current then IntervalButton.Default
                               else if st.loading.Some? then IntervalButton.Loading
                               else IntervalButton.Active)
              && (b.disabled <==> Intervals[i].s == st.current && st.loading.Some?)
  {
  }

  // ---------------------------------------------------------------------
  // The component, as state updated in place

  class ChartView {
    var currentInterval: int
    var loadingInterval: Option<int>
    var seriesAttached: bool
    var seriesData: seq<Point>
    // bookkeeping outside the component: the outstanding request and the log of requests sent
    ghost var inFlight: Option<int>
    ghost var fetches: seq<int>

    ghost function State(): ChartState
      reads this
    {
      ChartState(currentInterval, loadingInterval, seriesAttached, seriesData, inFlight, fetches)
    }

    ghost predicate Valid()
      reads this
    {
      Inv(State())
    }

    /** First render and the mount effect. */
    constructor (containerPresent: bool)
      ensures Valid() && State() == Mount(containerPresent)
    {
      currentInterval := 900;
      loadingInterval := None;
      seriesAttached := false;
      seriesData := [];
      inFlight := None;
      fetches := [];
      new;
      if containerPresent {
        seriesAttached := true;
        FetchData(currentInterval);
      }
      MountInv(containerPresent);
    }

    /** The part of `fetchData` before its first `await`. */
    method FetchData(s: int)
      modifies this
      ensures State() == StartLoad(old(State()), s)
    {
      loadingInterval := Some(s);
      inFlight := Some(s);
      fetches := fetches + [s];
    }

    /** The `onClick` of the toolbar's `i`-th button, which calls `handleIntervalChange`. */
    method ClickInterval(i: nat)
      requires Valid() && i < |Intervals|
      modifies this
      ensures Valid() && State() == IntervalChange(old(State()), Intervals[i].s)
    {
      var s := Intervals[i].s;
      if s != currentInterval && loadingInterval == None {
        currentInterval := s;
        FetchData(s);
      }
    }

    /** The response of the pending fetch arrives: `try`, `catch` and `finally` of `fetchData`. */
    method ReceiveResponse(resp: Response)
      requires Valid() && inFlight.Some?
      modifies this
      ensures Valid() && State() == Settle(old(State()), resp)
    {
      var payload := Payload(resp);
      if payload.Some? && seriesAttached {
        seriesData := Convert(payload.value);
      }
      loadingInterval := None;
      inFlight := None;
    }

    /**
     * The toolbar as rendered from the current state. The clauses after the
     * first are `ToolbarInState` applied to `State()`.
     */
    method RenderToolbar() returns (bs: seq<IntervalButton.View>)
      requires Valid()
      ensures bs == Toolbar(currentInterval, loadingInterval)
      ensures |bs| == |Intervals|
      ensures forall i :: 0 <= i < |bs| ==> (bs[i].disabled <==> Intervals[i].s == currentInterval && loadingInterval.Some?)
      ensures forall i :: 0 <= i < |bs| ==> (bs[i].variant == IntervalButton.Active <==> Intervals[i].s == currentInterval && loadingInterval.None?)
      ensures forall i :: 0 <= i < |bs| ==> (bs[i].variant == IntervalButton.Loading <==> Intervals[i].s == currentInterval && loadingInterval.Some?)
      ensures forall i :: 0 <= i < |bs| ==> (bs[i].variant == IntervalButton.Default <==> Intervals[i].s != currentInterval)
    {
      bs := Toolbar(currentInterval, loadingInterval);
      ToolbarInState(State());
    }
  }
}
