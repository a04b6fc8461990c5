/** The monitor application: its refresh cycle, its three views and the
    queries each view makes of the reading buffer. */
module App {
  import opened Model

  /** The three presentation modes; exactly one is active. */
  datatype ViewMode = Dashboard | Realtime | History

  /** The driver's error for a failed poll of the store; its content is not
      inspected by the application, only reported. */
  datatype FetchError = FetchError(message: string)

  /** Outcome of one poll of the store. */
  datatype Result<T, E> = Ok(value: T) | Err(error: E)

  /** Seconds that must elapse, strictly, between two polls. */
  const RefreshInterval: real := 2.0

  /** Concentration (ppm) from which the air counts as dirty, inclusive. */
  const DirtyThreshold: real := 100.0

  /** Number of most recent readings charted on the dashboard. */
  const RecentCount: nat := 10

  function Min(a: int, b: int): int
  {
    if a <= b then a else b
  }

  // ---------------------------------------------------------------------
  // Scheduling

  /** A frame at host time `now` polls the store when more than the refresh
      interval has passed since the last poll. */
  predicate RefreshDue(now: real, lastUpdate: real)
  {
    now - lastUpdate > RefreshInterval
  }

  /** The comparison is strict: exactly one interval after a poll is not yet
      due, and the first frames, up to 2 s after start, never poll because
      the last poll time starts at 0. */
  lemma RefreshDueIsStrict(lastUpdate: real, now: real)
    ensures !RefreshDue(lastUpdate + RefreshInterval, lastUpdate)
    ensures now <= RefreshInterval ==> !RefreshDue(now, 0.0)
    ensures now > lastUpdate + RefreshInterval ==> RefreshDue(now, lastUpdate)
  {
  }

  // ---------------------------------------------------------------------
  // Realtime view

  /** Threshold class of a concentration. */
  datatype AirQuality = Clean | Dirty

  function Classify(value: real): AirQuality
  {
    if value >= DirtyThreshold then Dirty else Clean
  }

  /** The class only changes once, from clean to dirty, as the value grows. */
  lemma ClassifyIsMonotone(v: real, w: real)
    requires v <= w
    ensures Classify(v) == Dirty ==> Classify(w) == Dirty
    ensures Classify(w) == Clean ==> Classify(v) == Clean
  {
  }

  /** The threshold itself is dirty; the boundary cases 99.999, 100.0 and
      100.001. */
  lemma ClassifyBoundary()
    ensures Classify(DirtyThreshold) == Dirty
    ensures Classify(99.999) == Clean
    ensures Classify(100.0) == Dirty
    ensures Classify(100.001) == Dirty
  {
  }

  /** What the realtime view shows: nothing yet, or the last reading with its
      class. */
  datatype Status = NoData | Latest(reading: Reading, quality: AirQuality)

  function RealtimeStatus(data: seq<Reading>): (s: Status)
    ensures s.NoData? <==> data == []
    ensures s.Latest? ==> s.reading == data[|data| - 1]
    ensures s.Latest? ==> (s.quality == Dirty <==> s.reading.value >= DirtyThreshold)
  {
    if data == [] then NoData
    else
      var last := data[|data| - 1];
      Latest(last, Classify(last.value))
  }

  /** The status depends only on the last reading: whatever came before it,
      a buffer ending in `r` shows `r`. */
  lemma RealtimeStatusOfAppended(prefix: seq<Reading>, r: Reading)
    ensures RealtimeStatus(prefix + [r]) == Latest(r, Classify(r.value))
    ensures RealtimeStatus(prefix + [r]) == RealtimeStatus([r])
  {
    assert (prefix + [r])[|prefix + [r]| - 1] == r;
  }

  // ---------------------------------------------------------------------
  // Dashboard view

  /** The iterator adaptor `rev`: the elements back to front. */
  function Reverse<T>(s: seq<T>): (r: seq<T>)
    ensures |r| == |s|
  {
    if s == [] then [] else Reverse(s[1..]) + [s[0]]
  }

  lemma {:induction false} ReverseAt<T>(s: seq<T>, k: nat)
    requires k < |s|
    ensures Reverse(s)[k] == s[|s| - 1 - k]
  {
    if k < |s| - 1 {
      ReverseAt(s[1..], k);
    }
  }

  /** The iterator adaptor `take(n)`: at most the first `n` elements. */
  function Take<T>(s: seq<T>, n: nat): (r: seq<T>)
    ensures |r| == Min(n, |s|)
    ensures forall k :: 0 <= k < |r| ==> r[k] == s[k]
  {
    if |s| <= n then s else s[..n]
  }

  /** The dashboard's readings: back to front, the first ten, back to front
      again. */
  function RecentWindow(data: seq<Reading>): (w: seq<Reading>)
    ensures |w| == Min(RecentCount, |data|)
  {
    Reverse(Take(Reverse(data), RecentCount))
  }

  /** Reversing, taking ten and reversing again keeps the last
      min(10, |data|) readings in their original order. */
  lemma {:induction false} RecentWindowIsSuffix(data: seq<Reading>)
    ensures RecentWindow(data) == data[|data| - Min(RecentCount, |data|)..]
  {
    var m := Min(RecentCount, |data|);
    var back := Reverse(data);
    var taken := Take(back, RecentCount);
    var window := Reverse(taken);
    var suffix := data[|data| - m..];
    assert |window| == m == |suffix|;
    forall k | 0 <= k < m
      ensures window[k] == suffix[k]
    {
      ReverseAt(taken, k);
      assert window[k] == taken[m - 1 - k] == back[m - 1 - k];
      ReverseAt(data, m - 1 - k);
    }
    assert window == suffix;
  }

  /** One charted point: whole epoch seconds of the reading and its value. */
  datatype PlotPoint = PlotPoint(seconds: real, ppm: real)

  function PlotPointOf(r: Reading): (p: PlotPoint)
    ensures p.ppm == r.value
    ensures p.seconds == p.seconds.Floor as real
    ensures p.seconds * 1000.0 <= r.timestampMillis as real < p.seconds * 1000.0 + 1000.0
  {
    PlotPoint(EpochSeconds(r.timestampMillis) as real, r.value)
  }

  /** The line plotted on the dashboard: the last min(10, |data|) readings in
      buffer order, each at its timestamp in seconds. */
  function DashboardPoints(data: seq<Reading>): (pts: seq<PlotPoint>)
    ensures |pts| == Min(RecentCount, |data|)
    ensures forall k :: 0 <= k < |pts| ==>
              pts[k] == PlotPointOf(data[|data| - |pts| + k])
  {
    RecentWindowIsSuffix(data);
    var window := RecentWindow(data);
    seq(|window|, k requires 0 <= k < |window| => PlotPointOf(window[k]))
  }

  // ---------------------------------------------------------------------
  // Central panel

  /** What the central panel shows for the active view. */
  datatype Screen =
    | Chart(points: seq<PlotPoint>)
    | Gauge(status: Status)
    | Log(rows: seq<Reading>)

  /** The panel drawn for `view` over the buffer `data`; the history view
      lists every reading in buffer order. */
  function Render(view: ViewMode, data: seq<Reading>): (s: Screen)
    ensures s.Chart? <==> view == Dashboard
    ensures s.Gauge? <==> view == Realtime
    ensures s.Log? <==> view == History
    ensures s.Chart? ==> |s.points| == Min(RecentCount, |data|)
    ensures s.Gauge? ==> (s.status == NoData <==> data == [])
    ensures s.Log? ==> s.rows == data
  {
    match view
    case Dashboard => Chart(DashboardPoints(data))
    case Realtime => Gauge(RealtimeStatus(data))
    case History => Log(data)
  }

  // ---------------------------------------------------------------------
  // The application state

  class MyApp {
    var view: ViewMode
    var data: seq<Reading>
    var lastUpdateTime: real

    /** Starts on the dashboard with an empty buffer and the last poll time at
        0 s (connecting to the store is not part of this model). */
    constructor ()
      ensures view == Dashboard && data == [] && lastUpdateTime == 0.0
    {
      view := Dashboard;
      data := [];
      lastUpdateTime := 0.0;
    }

    /** Applies one poll: a successful fetch replaces the whole buffer, a
        failed one leaves it exactly as it was. */
    method UpdateData(fetched: Result<seq<Reading>, FetchError>)
      modifies this`data
      ensures fetched.Ok? ==> data == fetched.value
      ensures fetched.Err? ==> data == old(data)
    {
      match fetched
      case Ok(readings) =>
        data := readings;
      case Err(_) =>
    }

    /** The refresh guard at the start of a frame. When due, the store is
        polled (its outcome is `fetched`) and the poll time moves to `now`
        whether or not the poll succeeded; otherwise nothing changes. */
    method Refresh(now: real, fetched: Result<seq<Reading>, FetchError>) returns (polled: bool)
      modifies this`data, this`lastUpdateTime
      ensures polled <==> RefreshDue(now, old(lastUpdateTime))
      ensures lastUpdateTime == if polled then now else old(lastUpdateTime)
      ensures data == if polled && fetched.Ok? then fetched.value else old(data)
    {
      polled := now - lastUpdateTime > RefreshInterval;
      if polled {
        UpdateData(fetched);
        lastUpdateTime := now;
      }
    }

    /** The sidebar: clicking a view's label makes it the active view; the
        buffer and the poll time are untouched. */
    method DrawSidebar(clicked: Option<ViewMode>)
      modifies this`view
      ensures view == if clicked.Some? then clicked.value else old(view)
    {
      if clicked.Some? {
        view := clicked.value;
      }
    }

    /** One frame: refresh guard, sidebar, then the central panel for the
        view that is active after the sidebar. */
    method Update(now: real, fetched: Result<seq<Reading>, FetchError>, clicked: Option<ViewMode>)
      returns (polled: bool, screen: Screen)
      modifies this
      ensures polled <==> RefreshDue(now, old(lastUpdateTime))
      ensures lastUpdateTime == if polled then now else old(lastUpdateTime)
      ensures data == if polled && fetched.Ok? then fetched.value else old(data)
      ensures view == if clicked.Some? then clicked.value else old(view)
      ensures screen == Render(view, data)
    {
      polled := Refresh(now, fetched);
      DrawSidebar(clicked);
      screen := Render(view, data);
    }
  }

  /** A click the sidebar received this frame, if any. */
  datatype Option<T> = None | Some(value: T)

  /** The cadence from a fresh start: frames at 0 s and 1.5 s do not poll, a
      frame at 2.1 s polls once; later a failed poll keeps the buffer and still
      pushes the next poll a full interval away. */
  method RefreshScenario(first: seq<Reading>, err: FetchError)
  {
    var app := new MyApp();
    var polled, screen := app.Update(0.0, Ok(first), None);
    assert !polled && app.data == [];
    assert screen == Chart([]);
    polled, screen := app.Update(1.5, Ok(first), None);
    assert !polled && app.data == [];
    polled, screen := app.Update(2.1, Ok(first), Some(Realtime));
    assert polled && app.data == first && app.lastUpdateTime == 2.1;
    assert screen == Gauge(RealtimeStatus(first));
    polled, screen := app.Update(4.1, Err(err), None);
    assert !polled;
    polled, screen := app.Update(4.2, Err(err), Some(History));
    assert polled && app.data == first && app.lastUpdateTime == 4.2;
    assert screen == Log(first);
    polled, screen := app.Update(6.2, Ok([]), None);
    assert !polled && app.data == first;
  }
}
