/**
 * The chart component's state: the normalised specification, the loading flag and the theme.
 * The effect that runs when the chart changes either stores the normalised specification or,
 * when normalising throws, logs and stores nothing; either way it ends the loading phase.
 */
module ChartView {
  import opened Wrappers
  import opened Traces
  import opened Layout

  /** A chart descriptor from the analysis reply; `kind` is its declared `type`. */
  datatype Chart = Chart(title: string, kind: string, plotlyJson: Option<PlotSpec>)

  /** What the component shows: the loading skeleton, the "could not load" message, or the plot. */
  datatype Screen = Skeleton | NoData | Plot(data: seq<Option<Trace>>, layout: ComposedLayout)

  datatype ViewState = ViewState(plotData: Option<PlotSpec>, isLoading: bool, isDarkMode: bool)

  /** The state right after mounting, before any effect has run. */
  const Mounted := ViewState(None, true, false)

  /** The chart effect: it only acts when the chart and its `plotly_json` are present. */
  function ChartEffect(s: ViewState, chart: Option<Chart>): (t: ViewState)
    ensures t.isDarkMode == s.isDarkMode
    ensures chart.None? || chart.value.plotlyJson.None? ==> t == s
    ensures chart.Some? && chart.value.plotlyJson.Some? ==>
      var normalized := Normalize(chart.value.kind, chart.value.plotlyJson.value);
      && !t.isLoading
      && (normalized.Success? ==> t.plotData == Some(normalized.value))
      && (normalized.Failure? ==> t.plotData == s.plotData)
  {
    if chart.Some? && chart.value.plotlyJson.Some? then
      match Normalize(chart.value.kind, chart.value.plotlyJson.value)
      case Success(spec) => s.(plotData := Some(spec), isLoading := false)
      case Failure(_) => s.(isLoading := false)
    else s
  }

  /** The effect run once per chart value, in order. */
  function RunEffects(s: ViewState, charts: seq<Option<Chart>>): ViewState
    decreases |charts|
  {
    if charts == [] then s else RunEffects(ChartEffect(s, charts[0]), charts[1..])
  }

  /** The render: skeleton while loading, the message without data, else the plot (`data || []`). */
  function Render(s: ViewState, chartKind: string): (r: Screen)
    ensures r.Skeleton? <==> s.isLoading
    ensures r.NoData? <==> !s.isLoading && s.plotData.None?
    ensures r.Plot? ==>
      && r.data == s.plotData.value.data.GetOr([])
      && r.layout.passThrough.Keys == s.plotData.value.layout.Keys - OwnedKeys
      && r.layout.style == StyleFor(s.isDarkMode, chartKind)
      && r.layout == Compose(s.plotData.value.layout, s.isDarkMode, chartKind)
  {
    if s.isLoading then Skeleton
    else if s.plotData.None? then NoData
    else Plot(s.plotData.value.data.GetOr([]), Compose(s.plotData.value.layout, s.isDarkMode, chartKind))
  }

  class ChartDisplay {
    var plotData: Option<PlotSpec>
    var isLoading: bool
    var isDarkMode: bool

    function State(): ViewState
      reads this
    {
      ViewState(plotData, isLoading, isDarkMode)
    }

    constructor ()
      ensures State() == Mounted
    {
      plotData := None;
      isLoading := true;
      isDarkMode := false;
    }

    method OnChart(chart: Option<Chart>)
      modifies this
      ensures State() == ChartEffect(old(State()), chart)
    {
      if chart.Some? && chart.value.plotlyJson.Some? {
        var normalized := Normalize(chart.value.kind, chart.value.plotlyJson.value);
        if normalized.Success? {
          plotData := Some(normalized.value);
        }
        isLoading := false;
      }
    }

    /** The theme signal changed; the specification is not normalised again. */
    method OnThemeChange(dark: bool)
      modifies this
      ensures State() == old(State()).(isDarkMode := dark)
    {
      isDarkMode := dark;
    }

    /** What the component shows for a chart of the given kind. */
    function Shown(chartKind: string): Screen
      reads this
    {
      Render(State(), chartKind)
    }
  }

  /**
   * Mounting the component shows the skeleton; a line chart whose `data` holds `null` then
   * leaves the "could not load" message. Both renders read the chart's own kind.
   */
  method NullChartAfterMount(title: string) returns (before: Screen, after: Screen)
    ensures before == Skeleton && after == NoData
  {
    var chart := Chart(title, "line", Some(PlotSpec(Some([None]), map[], map[])));
    var view := new ChartDisplay();
    before := view.Shown(chart.kind);
    assert chart.plotlyJson.value.data.value[0].None?;
    view.OnChart(Some(chart));
    after := view.Shown(chart.kind);
  }

  // ---------------------------------------------------------------------------------------
  // Properties of the status

  /** Effects of charts without a `plotly_json` change nothing: a mounted component stays loading. */
  lemma {:induction false} NoSpecKeepsState(s: ViewState, charts: seq<Option<Chart>>)
    requires forall i :: 0 <= i < |charts| ==> charts[i].None? || charts[i].value.plotlyJson.None?
    ensures RunEffects(s, charts) == s
    ensures s == Mounted ==> forall kind :: Render(RunEffects(s, charts), kind) == Skeleton
    decreases |charts|
  {
    if charts != [] {
      NoSpecKeepsState(s, charts[1..]);
    }
  }

  /** A chart whose normalisation throws, shown first, leaves the "could not load" message. */
  lemma FailureShowsNoData(chart: Chart)
    requires chart.plotlyJson.Some? && Normalize(chart.kind, chart.plotlyJson.value).Failure?
    ensures forall kind :: Render(ChartEffect(Mounted, Some(chart)), kind) == NoData
  {
  }

  /** A line chart with a null entry in `data` throws, so it shows the message. */
  lemma NullTraceShowsNoData(title: string)
    ensures var chart := Chart(title, "line", Some(PlotSpec(Some([None]), map[], map[])));
      Render(ChartEffect(Mounted, Some(chart)), "line") == NoData
  {
    var spec := PlotSpec(Some([None]), map[], map[]);
    assert spec.data.value[0].None?;
  }

  /** When normalising succeeds the plot shows the normalised traces and the caller's layout composed. */
  lemma SuccessRendersPlot(s: ViewState, chart: Chart)
    requires chart.plotlyJson.Some? && Normalize(chart.kind, chart.plotlyJson.value).Success?
    ensures var spec := Normalize(chart.kind, chart.plotlyJson.value).value;
      Render(ChartEffect(s, Some(chart)), chart.kind)
        == Plot(spec.data.GetOr([]), Compose(chart.plotlyJson.value.layout, s.isDarkMode, chart.kind))
  {
  }

  /** A specification without `data` renders an empty trace list. */
  lemma MissingDataRendersEmpty(s: ViewState, chart: Chart)
    requires chart.plotlyJson.Some? && chart.plotlyJson.value.data.None?
    ensures Render(ChartEffect(s, Some(chart)), chart.kind).Plot?
    ensures Render(ChartEffect(s, Some(chart)), chart.kind).data == []
  {
  }

  /** A later chart whose normalisation throws keeps the plot stored for an earlier one. */
  lemma FailureKeepsStoredPlot(s: ViewState, chart: Chart)
    requires chart.plotlyJson.Some? && Normalize(chart.kind, chart.plotlyJson.value).Failure?
    ensures ChartEffect(s, Some(chart)).plotData == s.plotData
    ensures !ChartEffect(s, Some(chart)).isLoading
  {
  }

  /** A theme change re-renders with the same traces and only the theme colours of the layout rewritten. */
  lemma ThemeChangeKeepsTraces(s: ViewState, dark: bool, chartKind: string)
    requires !s.isLoading && s.plotData.Some?
    ensures var before := Render(s, chartKind);
      var after := Render(s.(isDarkMode := dark), chartKind);
      && before.Plot? && after.Plot?
      && after.data == before.data
      && after.layout.passThrough == before.layout.passThrough
      && after.layout.style == Recolor(before.layout.style, dark)
  {
    ThemeChangesOnlyColors(s.plotData.value.layout, dark, chartKind);
    if dark == s.isDarkMode {
      assert Recolor(StyleFor(dark, chartKind), dark) == StyleFor(dark, chartKind);
    }
  }
}
