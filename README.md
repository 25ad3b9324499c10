# Excel Analyzer chart pipeline, cleaning report and upload flow, in Dafny

This project models the browser side of Excel Analyzer, a Next.js front end. The user drops a
spreadsheet. The front end sends it to an analysis service and shows the reply: a cleaning report
and a list of Plotly charts. The model covers the three components with logic:

- **Chart display** (`src/components/ChartDisplay.js`):
  - *Trace normaliser* (`traces.dfy`, module `Traces`). For a chart declared `line`, it decides
    whether the x axis looks like dates. Only the first x value of each trace is inspected, with an
    unanchored `dddd-dd-dd` search.
    - Dated chart: even-indexed traces become bars and odd-indexed ones filled splines.
    - Otherwise: every trace becomes a smoothed line.
    - Every other chart is passed through unchanged.
  - *Layout composer* (`layout.dfy`, module `Layout`). It overlays the caller's Plotly layout with
    twelve keys the component owns. The result is kept as two disjoint parts, the surviving caller
    keys and a typed `Style`. `Flatten` turns it back into one object, and `ComposeIsSpread` proves
    that this equals the JavaScript spread `{...layout, <owned keys>}`.
  - *Status* (`chart_view.dfy`, module `ChartView`). A class with the component's state
    `plotData`, `isLoading` and `isDarkMode`. `OnChart` is the effect, proved equal to the pure
    step `ChartEffect`. `Render` chooses among the loading skeleton, the "could not load" message
    and the plot.
- **Cleaning report** (`report.dfy`, module `Report`): the removed-row count and the four
  percentages `rows_before > 0 ? Math.round(k / rows_before * 100) : 0`. They are computed exactly
  as `(200k + d) div 2d`, which is proved equal to `Math.round` taken over the reals.
- **Uploader** (`uploader.dfy`, module `Uploader`). A class holding `selectedFile` and the page
  state the component sets (`isLoading`, `error`, `analysisResult`).
  - The asynchronous handlers are split at the request. `OnDrop` and `OnAnalyzeClick` run up to
    the request and return the file sent. `OnReply` applies the service's answer.
  - Each method is proved equal to a pure step function (`DropStep`, `AnalyzeStep`, `ReplyStep`).
    The lemmas are stated about those functions.

`wrappers.dfy` holds `Option`/`Result`. `json.dfy` holds a JSON value type for the parts of a
Plotly specification and of the service's reply that the code never inspects.

Representation choices:

- A trace, its `line` and its `marker` are records. The keys the code reads or writes are named
  fields, and every other key is in a `rest` map. So `{...trace, k: v}` is a record update, and
  "every other key is carried over" is stated as equality of the remaining fields.
- A key assigned `undefined` is modelled as absent. This covers `color: trace.line?.color ||
  undefined` and `tickformat` on non-line charts.
- Among the payloads the model represents, the only exception the effect can meet is a `null`
  entry in `data`. The effect reads `x` or `line` of such an entry, which throws when the chart
  is declared `line`. `Normalize` returns `Failure(NullTrace)` exactly then. A `data` that is not
  an array also throws, but it is not representable (see "Left out").

Four facts about the code that a reader might expect otherwise:

- No trace is dropped for missing or mismatched coordinates. Nothing checks `x`/`y` lengths.
- Axis title and tick fonts are white in both themes. Only the general font colour and the two
  grid colours follow the theme.
- The date test looks only at `x[0]` of each trace. It finds the pattern anywhere in that string,
  not only as a prefix.
- The report does not clamp `rows_after > rows_before`.

## Model

| member | source | states |
|---|---|---|
| `Traces.ContainsDate` | src/components/ChartDisplay.js:44 | the regular-expression test holds iff some position of the string starts ten characters of the form `dddd-dd-dd` (ASCII digits) |
| `Traces.MatchFromFindsDate` | src/components/ChartDisplay.js:44 | scanning start positions from `from` on finds a match iff one exists at or after `from` |
| `Traces.IsDated` | src/components/ChartDisplay.js:42-44 | a trace is dated iff `x` is a non-empty array whose first element is a string containing `dddd-dd-dd` somewhere |
| `Traces.SomeDated` | src/components/ChartDisplay.js:42-45 | without null entries, `some` yields exactly whether some trace is dated; a thrown error implies a null entry |
| `Traces.AsBar` | src/components/ChartDisplay.js:51-64 | the bar rewrite sets `type` bar and `width` 0.7, replaces the marker by one coloured with the truthy `line.color` or `#3b82f6`, and keeps `x`, `y`, `line`, `fill`, `fillcolor` and the unnamed keys |
| `Traces.AsArea` | src/components/ChartDisplay.js:65-81 | the area rewrite sets `type` scatter and `fill` tozeroy, `fillcolor` the truthy colour + `50` or the default rgba, a spline line keeping its colour and a marker of size 8; `x`, `y`, `width` and unnamed keys kept |
| `Traces.AsSmoothLine` | src/components/ChartDisplay.js:86-99 | the smooth-line rewrite makes the line a spline whose colour is the truthy original or absent, keeps the line's other keys, sets marker size 8, and leaves `type`, `x`, `y`, `fill`, `fillcolor`, `width` and unnamed keys unchanged |
| `Traces.RewriteFrom` | src/components/ChartDisplay.js:49-99 | a successful `map` keeps the number of traces and yields no null entry; a thrown error implies a null entry in the input |
| `Traces.RewriteFromSpec` | src/components/ChartDisplay.js:49-99 | the `map` succeeds iff no entry is null, and then keeps the length and rewrites entry k by the treatment for index `from + k` |
| `Traces.Normalize` | src/components/ChartDisplay.js:37-101 | non-`line` charts and specifications without `data` come out equal to the input; it throws iff the chart is `line` and `data` has a null entry; the layout and the other top-level keys are never changed |
| `Traces.NormalizedTraces` | src/components/ChartDisplay.js:42-99 | for a line chart without null entries, trace k is rewritten with the bar/area treatment by index parity when some trace is dated, else with the smooth-line treatment; the count is preserved |
| `Traces.NormalizeKeepsData` | src/components/ChartDisplay.js:49-99 | the number and order of traces and each trace's `x`, `y` and unnamed keys are preserved |
| `Traces.TemporalEvenBecomesBar` | src/components/ChartDisplay.js:51-64 | even index of a dated line chart: `type` bar, `width` 0.7, the marker replaced by colour = truthy `line.color` else `#3b82f6`, opacity 0.8, white 1-pixel outline; `line`, `fill`, `fillcolor` kept |
| `Traces.TemporalOddBecomesArea` | src/components/ChartDisplay.js:65-81 | odd index: `type` scatter, `fill` tozeroy, `fillcolor` = colour + `50` or `rgba(59, 130, 246, 0.3)`, line width 3 spline smoothing 1.3 with its other keys kept, marker size 8 with its other keys kept, `width` kept |
| `Traces.NonTemporalBecomesSmoothLine` | src/components/ChartDisplay.js:86-99 | undated line chart: line width 3 spline smoothing 1.3, an empty colour becomes absent, marker size 8; all other keys of the trace unchanged |
| `Traces.OnlyFirstXCounts` | src/components/ChartDisplay.js:43-44 | a trace whose first x value is a number is not dated, whatever follows |
| `Traces.DateInsideLabel` | src/components/ChartDisplay.js:44 | the pattern is found inside a longer label, and `2024-1-15` does not match |
| `Traces.DateSeriesBecomesBar` | src/components/ChartDisplay.js:40-64 | a line chart with one trace of two ISO dates becomes exactly one bar trace |
| `Layout.StyleFor` | src/components/ChartDisplay.js:147-214 | the owned style takes its font and grid colours from the theme, sets an x tick format iff the chart is `line`, and carries a ten-colour colorway |
| `Layout.Compose` | src/components/ChartDisplay.js:145-146 | the surviving caller keys are exactly the caller's keys outside the owned set, with their values |
| `Layout.StyleJson` | src/components/ChartDisplay.js:147-214 | the owned part sets exactly the twelve owned keys |
| `Layout.ComposeIsSpread` | src/components/ChartDisplay.js:145-215 | the flattened composed layout equals `{...layout, <owned keys>}` |
| `Layout.FlattenKeys` | src/components/ChartDisplay.js:145-215 | the final layout has the caller's keys plus the owned ones; non-owned caller keys pass through unchanged, owned keys take the fixed values |
| `Layout.OwnedPartIgnoresCaller` | src/components/ChartDisplay.js:147-214 | the owned part is the same whatever the caller's layout; caller `xaxis`/`yaxis` never survive |
| `Layout.ComposeIdempotent` | src/components/ChartDisplay.js:145-215 | composing an already composed layout again gives the same layout |
| `Layout.ThemeChangesOnlyColors` | src/components/ChartDisplay.js:151-186 | switching the theme changes exactly the font colour and the two grid colours, and both really change |
| `Layout.ThemeColors` | src/components/ChartDisplay.js:151-186 | font colour `#FFFFFF`/`#374151` and grid colours `rgba(255, 255, 255, 0.3)`/`rgba(0, 0, 0, 0.1)` by theme; axis tick and title fonts white in both themes |
| `Layout.TickFormatForLineCharts` | src/components/ChartDisplay.js:171-173 | x tick format `%b %Y` and angle 30 iff the chart is `line`, else no format and angle 0; the y axis sets neither |
| `Layout.FixedStyle` | src/components/ChartDisplay.js:147-206 | ten-colour colorway starting `#3b82f6`, height 400, hover mode closest, autosize, transparent backgrounds |
| `ChartView.ChartEffect` | src/components/ChartDisplay.js:33-110 | the effect never touches the theme; without a chart or its `plotly_json` it changes nothing; otherwise loading ends, the normalised specification is stored on success and the old plot kept on a thrown error |
| `ChartView.Render` | src/components/ChartDisplay.js:112-144 | the skeleton shows iff loading, the message iff not loading and no plot is stored, otherwise the plot of the stored traces (an empty list when `data` is absent) with the stored layout composed for the theme and kind: the caller's keys outside the owned set with their values, plus the owned style |
| `ChartView.NullChartAfterMount` | src/components/ChartDisplay.js:10-134 | on the component, rendering with the chart's own kind: right after mounting it shows the skeleton, and after a line chart whose `data` is `[null]` it shows the message |
| `ChartView.ChartDisplay.constructor` | src/components/ChartDisplay.js:10-12 | a mounted component has no plot data, is loading, and is in light mode |
| `ChartView.ChartDisplay.OnChart` | src/components/ChartDisplay.js:33-110 | the effect's new state is `ChartEffect` of the old one: it acts only when the chart and its `plotly_json` are present, stores the normalised specification on success, stores nothing on a thrown error, and ends loading either way |
| `ChartView.ChartDisplay.OnThemeChange` | src/components/ChartDisplay.js:23 | a theme change sets only `isDarkMode` |
| `ChartView.NoSpecKeepsState` | src/components/ChartDisplay.js:34-126 | effects of charts without `plotly_json` change nothing, so a mounted component shows the loading skeleton forever |
| `ChartView.FailureShowsNoData` | src/components/ChartDisplay.js:104-134 | a first chart whose normalisation throws leaves the "could not load" message |
| `ChartView.NullTraceShowsNoData` | src/components/ChartDisplay.js:42-134 | a line chart whose `data` is `[null]` shows the message |
| `ChartView.SuccessRendersPlot` | src/components/ChartDisplay.js:103-215 | after a successful effect the screen is the plot of the normalised traces with the caller's layout composed for the current theme and the chart's type |
| `ChartView.MissingDataRendersEmpty` | src/components/ChartDisplay.js:144 | a specification without `data` renders an empty trace list |
| `ChartView.FailureKeepsStoredPlot` | src/components/ChartDisplay.js:103-108 | a throwing effect keeps whatever plot was stored before and still ends loading |
| `ChartView.ThemeChangeKeepsTraces` | src/components/ChartDisplay.js:143-215 | re-rendering after a theme change shows the same traces and caller keys, with only the theme colours of the style rewritten |
| `Report.RoundedPercentIsMathRound` | src/components/AnalysisReport.js:9 | `(200k + d) div 2d` equals `Math.round(k / d * 100)` (floor of x + 1/2) over the reals, for d > 0 |
| `Report.RemovedCount` | src/components/AnalysisReport.js:30 | the removed count plus `rows_after` is `rows_before`; it is negative iff there are more rows after than before |
| `Report.Percentage` | src/components/AnalysisReport.js:8-10 | 0 when `rows_before <= 0` (negative included), else `Math.round(k / rows_before * 100)` |
| `Report.ReportFigures` | src/components/AnalysisReport.js:8-65 | the shown figures: the removed count, and every percentage 0 when `rows_before <= 0`, else the rounded share of its own count (the removed percentage of `rows_before - rows_after`) |
| `Report.PercentageInRange` | src/components/AnalysisReport.js:51-65 | for 0 <= k <= rows_before with rows_before > 0 the percentage is between 0 and 100 |
| `Report.AllRowsIsHundred` | src/components/AnalysisReport.js:9 | removing every row shows exactly 100 |
| `Report.NoClamping` | src/components/AnalysisReport.js:9-30 | more rows after than before gives a negative removed count and a percentage at most 0 |
| `Report.FiguresInRange` | src/components/AnalysisReport.js:8-65 | with counts in range, the removed count is between 0 and rows_before and all four percentages between 0 and 100 |
| `Report.NoRowsShowsZero` | src/components/AnalysisReport.js:8-65 | with `rows_before <= 0` every percentage is 0 |
| `Report.EightyOfHundred` | src/components/AnalysisReport.js:9-30 | 100 rows before and 80 after show 20 removed and 20% |
| `Uploader.EndsWithMeansSuffix` | src/components/FileUploader.js:22 | `endsWith` holds iff the name is some prefix followed by the suffix |
| `Uploader.IsExcelName` | src/components/FileUploader.js:22 | a name passes iff it is some prefix followed by `.xlsx` or `.xls` |
| `Uploader.ExcelNameExamples` | src/components/FileUploader.js:22 | `.xlsx` and `.xls` names pass; `.csv`, upper-case `.XLSX` and a bare `xlsx` fail |
| `Uploader.DropStep` | src/components/FileUploader.js:11-34 | a request is made iff the list is non-empty and the first file's name passes; the first file is recorded whenever there is one, and an empty list keeps the recorded file |
| `Uploader.AnalyzeStep` | src/components/FileUploader.js:121-128 | the button sends the recorded file, starts loading and clears error and result, keeping the file |
| `Uploader.ErrorText` | src/components/FileUploader.js:47-50 | the message shown for a failure is a truthy `detail`, else the fixed fallback text |
| `Uploader.ReplyStep` | src/components/FileUploader.js:44-53 | loading ends and the file stays; an answer stores its body, a failure stores the `ErrorText` of its detail, each leaving the other field |
| `Uploader.FileUploader.constructor` | src/components/FileUploader.js:9 | no file recorded, not loading, no error, no result |
| `Uploader.FileUploader.OnDrop` | src/components/FileUploader.js:11-54 | the new state and the request are `DropStep` of the old state and the dropped list |
| `Uploader.FileUploader.OnAnalyzeClick` | src/components/FileUploader.js:121-128 | callable only while a file is recorded; starts loading, clears error and result, and sends the recorded file |
| `Uploader.FileUploader.OnReply` | src/components/FileUploader.js:44-53 | the new state is `ReplyStep` of the old state and the answer |
| `Uploader.DropOutcomes` | src/components/FileUploader.js:11-34 | a request starts iff the list is non-empty and the first name is a spreadsheet name; an empty list sets only the no-file error; a refused name records the file and sets only the extension error; a started request sets loading and clears error and result |
| `Uploader.OnlyFirstFileMatters` | src/components/FileUploader.js:18 | files after the first have no effect |
| `Uploader.ReplyOutcomes` | src/components/FileUploader.js:44-53 | loading always ends; an answer stores its body and leaves the error; a failure with a truthy `detail` shows exactly that detail, one without shows the fixed message, and either leaves the result |
| `Uploader.RefusedFileCanBeSent` | src/components/FileUploader.js:18-25 | a file refused by the extension check is still recorded, and the analyse button then sends it |
| `Uploader.RefusedThenAnalyzed` | src/components/FileUploader.js:121-147 | on the component: dropping `ventas.csv` sends nothing, and pressing the button afterwards sends `ventas.csv` |

## Left out

- The dark-mode observer (`MutationObserver` and reading `document.documentElement.classList`) is DOM plumbing. Dark mode enters as the argument of `OnThemeChange`.
- Plotly itself, the dynamic import, the `config` object, the chart's title/type heading and all JSX and Tailwind markup are rendering only.
- The deep copy `JSON.parse(JSON.stringify(...))` is not an operation of the model. Datatypes are values, so the input specification cannot be mutated.
- The axios POST, the multipart form and the endpoint URL are network I/O. react-dropzone's MIME `accept` filter and `maxFiles` belong to a foreign library. The dropped list and the service's answer are parameters, and the answer arrives as a separate `OnReply` call.
- `console.error` logging has no effect on state.
- The file-size display `(size / 1024 / 1024).toFixed(2)` is floating-point formatting.
- JSON numbers are reals: no IEEE-754 rounding of `Math.round` over a double division, and no NaN or Infinity.
- `Traces.Line`: `line.color` is a string, so a non-string colour (which would be stringified by the template literal) is not representable.
- `Traces.Trace`: a `line` or `marker` that is not an object (strings and arrays spread into index keys) is not representable, and a `null` one is modelled as absent.
- `Traces.PlotSpec`: entries of `data` that are neither objects nor `null`, and a `data` that is not an array, are not representable. For a line chart the code throws on a truthy non-array `data` (an object, string, number or `true` has no `some` method), which ends in the "could not load" message. A truthy `plotly_json` that is not an object (a string or a number) is not representable either: the code copies and stores it and renders an empty trace list. Nor is a `layout` that is a string or an array, which the spread turns into index keys.
- `Traces.IsDated`: an object-valued `x` that carries its own `length` and `0` keys is treated as not dated.
- `Uploader.Reply`: `detail` is a string or absent. A non-string `detail` (such as a list of validation errors) is not representable. A JSON `null` reply body is stored as `Some(Null)`, while the code stores `null`, which the state writes as `None` elsewhere; the page's `analysisResult &&` guard shows no report for either.
- Several requests in flight at once: the model lets a client call `OnReply` in any order and says nothing about which answer wins.
- `src/app/page.js` only wires state and maps charts to components.
