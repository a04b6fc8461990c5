# Sensor-gas monitor: refresh cycle and trend approximation

A model, in Dafny, of the logic at the heart of a desktop gas-concentration
monitor written in Rust with egui. The application keeps a buffer of readings
(timestamp, ppm) fetched from a MongoDB collection, polls the store at most
once every two seconds, and shows one of three views: a dashboard chart of the
last ten readings of the buffer, a realtime panel with the last reading and its
clean/dirty class (dirty from 100 ppm on), and the full history. A separate
routine, `compute_approximation`, reconstructs a trend curve from a series of
values by a local quadratic (Taylor) step at every interior sample.

Files:

- `model.dfy` (module `Model`): the `Reading` record (millisecond timestamp,
  real value) and the conversion of a timestamp to whole epoch seconds.
- `app.dfy` (module `App`): the `MyApp` class with its three fields `view`,
  `data`, `lastUpdateTime`; its constructor, `UpdateData`, the refresh guard
  `Refresh`, the sidebar `DrawSidebar` and the whole frame `Update`; and the
  pure queries of the views (`RealtimeStatus`, `RecentWindow`,
  `DashboardPoints`, `Render`) with their lemmas. `RefreshScenario` walks a
  fresh application through a sequence of frames using only the methods'
  contracts.
- `compute.dfy` (module `Compute`): `ComputeApproximation`, the loop of
  `compute_approximation`, proved against the function `Approximation`, and
  the lemmas about that function.

Modelling choices:

- The host clock (`egui` input time, seconds since start, an `f64`) is a
  `real` parameter of each frame; values are `real`. Floating-point rounding
  is not modelled: every arithmetic fact here holds over exact reals.
- The fetch from the store is the parameter `fetched: Result<seq<Reading>,
  FetchError>` of a frame. It is consulted only when the frame polls. Polling
  is synchronous (`update_data` blocks on the runtime inside the frame), so at
  most one fetch is ever in flight and the model needs no pending flag.
- A sidebar click is `clicked: Option<ViewMode>`, the label clicked in this
  frame, if any.
- The dashboard's `rev().take(10).rev()` is modelled as written, with
  `Reverse` and `Take`, and `RecentWindowIsSuffix` proves it is the suffix of
  length min(10, n).
- Smoothing does not return interior values unchanged: `f0 + fp + fpp/2`
  equals `data[i+1]` exactly, so the point built around interior index `i` is
  `(i + 1, data[i + 1])` (`LocalQuadraticIsNext`, `ApproximationIsNextSamples`,
  `LinearExample`).

## Model

| member | source | states |
|---|---|---|
| `Model.EpochSeconds` | app.rs:90 | the chart's x value is the timestamp's whole seconds, rounded down: s·1000 ≤ millis < s·1000 + 1000 |
| `App.RefreshDue` | app.rs:139 | the poll guard `now - lastUpdate > 2.0`; its properties are stated by `RefreshDueIsStrict` and used by the ensures of `MyApp.Refresh` |
| `App.RefreshDueIsStrict` | app.rs:139 | polling needs strictly more than 2 s since the last poll: exactly 2 s is not enough, no frame up to 2 s after start polls, anything beyond 2 s does |
| `App.Classify` | app.rs:110-114 | the clean/dirty choice of the realtime view; its contract is stated by `ClassifyIsMonotone` and `ClassifyBoundary` |
| `App.ClassifyIsMonotone` | app.rs:110-114 | the class only goes from clean to dirty as the value grows |
| `App.ClassifyBoundary` | app.rs:110 | the threshold itself is dirty; 99.999 is clean, 100.0 and 100.001 are dirty |
| `App.RealtimeStatus` | app.rs:104-119 | no data exactly when the buffer is empty; otherwise the shown reading is the last one and it is dirty exactly when its value is at least 100.0 |
| `App.RealtimeStatusOfAppended` | app.rs:104-114 | the status depends only on the last reading of the buffer, not on anything before it |
| `App.Reverse` | app.rs:87-89 | reversing keeps the length |
| `App.ReverseAt` | app.rs:87-89 | the k-th element of the reversal is the (n-1-k)-th of the input |
| `App.Take` | app.rs:88 | taking n keeps the first min(n, length) elements unchanged |
| `App.RecentWindow` | app.rs:84-89 | `rev().take(10).rev()` as written: min(10, n) readings; `RecentWindowIsSuffix` states which ones |
| `App.RecentWindowIsSuffix` | app.rs:84-91 | reverse, take 10, reverse gives exactly the last min(10, n) readings in their original order |
| `App.PlotPointOf` | app.rs:90 | a reading's chart point keeps its value and sits at a whole number of seconds s with s·1000 ≤ millis < s·1000 + 1000, i.e. the timestamp's seconds rounded down |
| `App.DashboardPoints` | app.rs:84-91 | the chart has min(10, n) points, the k-th being the timestamp in seconds and the value of reading n - min(10, n) + k |
| `App.Render` | app.rs:158-164 | the central panel follows the active view: a chart of min(10, n) points, the realtime status (no data exactly when the buffer is empty), or the whole buffer in order |
| `App.MyApp.constructor` | app.rs:28-38 | a new application shows the dashboard, holds no readings and has last poll time 0 |
| `App.MyApp.UpdateData` | app.rs:41-51 | a successful fetch replaces the buffer by the fetched readings, with no merging; a failed one leaves it exactly as it was |
| `App.MyApp.Refresh` | app.rs:138-142 | a frame polls exactly when more than 2 s passed since the last poll; then the poll time becomes `now` whether the fetch succeeded or not and the buffer is replaced only on success; a frame that does not poll changes neither; the view is never touched |
| `App.MyApp.DrawSidebar` | app.rs:62-71 | clicking a view's label makes it the active view; without a click the view stays; buffer and poll time are untouched |
| `App.MyApp.Update` | app.rs:137-165 | one frame: the refresh guard's effect on buffer and poll time, the sidebar's effect on the view, and the panel drawn from the new state |
| `Compute.LocalQuadratic` | compute.rs:11-14 | the value `f0 + fp * 1.0 + fpp / 2.0` for one interior index; `LocalQuadraticIsNext` states what it equals |
| `Compute.LocalQuadraticIsNext` | compute.rs:11-14 | f0 + fp·1 + fpp/2 with the central and second differences equals the next sample exactly |
| `Compute.Approximation` | compute.rs:5-16 | fewer than 3 values give no points; otherwise exactly n - 2 points |
| `Compute.ComputeApproximation` | compute.rs:1-19 | the loop returns the approximation: empty for n < 3, otherwise n - 2 points with the k-th at (k + 2, data[k + 2]); every index it reads is in bounds |
| `Compute.ApproximationIsNextSamples` | compute.rs:9-16 | the whole curve equals the samples from index 2 on, each at x equal to its index |
| `Compute.ApproximationXStrictlyIncreasing` | compute.rs:9-15 | the k-th point has x = k + 2, for every point including the single one of a three-value input, so the x-coordinates grow by exactly 1 |
| `Compute.ApproximationIsLocal` | compute.rs:11-14 | each point depends only on the three values around its interior index |
| `Compute.ApproximationOfLinear` | compute.rs:11-15 | for samples on a line a + b·j, every output point lies on that line |
| `Compute.LinearExample` | compute.rs:9-16 | 1, 2, 3, 4, 5 gives (2, 3), (3, 4), (4, 5): each interior value is replaced by its successor |
| `Compute.SpikeExample` | compute.rs:9-16 | 0, 0, 10, 0, 0 gives (2, 10), (3, 0), (4, 0): the point built around the spike does not keep the value 10 |

## Left out

- The MongoDB driver (`get_client`, `fetch_data`, `insert_data` in mongo.rs): network access, reading `MONGODB_URI` and draining a cursor. A fetch is only its outcome, an argument of the frame.
- Start-up (main.rs and the first lines of `MyApp::new`): creating the Tokio runtime and connecting to the store, whose failures end the program.
- All egui rendering: panels, labels, colours, font sizes, the scroll area, the plot widget and text formatting such as `{:.2} ppm`. A view is modelled by the data it shows (`Screen`).
- The exit button of the sidebar (`std::process::exit`).
- DrawSidebar: assumes at most one sidebar label is clicked per frame; the three checks in a row in `draw_sidebar` would let the last of several clicks in one frame win, which the model does not represent.
- The diagnostic lines printed on a fetch (count on success, error on failure).
- IEEE-754 rounding: values, differences and the clock are exact reals. Over floats `f0 + fp + fpp/2` can differ from `data[i+1]` by rounding.
- The calendar conversion of timestamps: a timestamp is an integer of milliseconds, and only its whole seconds are used, as the chart does; the realtime and history views' date formatting is not modelled.
- `compute_approximation` is not declared as a module of the binary (main.rs lists only mongo, model and app), so nothing in the application calls it; it is modelled on its own.
