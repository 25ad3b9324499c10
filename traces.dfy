/**
 * The trace normaliser of the chart component: the body of the effect that copies a chart's
 * Plotly specification and, for a chart declared as `line`, rewrites every trace either into an
 * alternating bar / filled-spline composite (when the x axis looks like dates) or into a smoothed
 * line (otherwise).
 */
module Traces {
  import opened Wrappers
  import opened JsonValues

  /**
   * A trace's `line` object: the keys the normaliser reads or writes are named, all others are in
   * `rest`, which never holds `color`, `width`, `shape` or `smoothing`.
   */
  datatype Line = Line(
    color: Option<string>,
    width: Option<Json>,
    shape: Option<Json>,
    smoothing: Option<Json>,
    rest: map<string, Json>)

  /**
   * A trace's `marker` object; `outline` is the marker's own `line` key. `rest` never holds
   * `color`, `opacity`, `size` or `line`.
   */
  datatype Marker = Marker(
    color: Option<Json>,
    opacity: Option<Json>,
    size: Option<Json>,
    outline: Option<Json>,
    rest: map<string, Json>)

  /**
   * One Plotly trace; `kind` is its `type` key. Keys the normaliser never names are in `rest`,
   * which never holds `x`, `y`, `type`, `line`, `marker`, `fill`, `fillcolor` or `width`.
   */
  datatype Trace = Trace(
    x: Option<Json>,
    y: Option<Json>,
    kind: Option<Json>,
    line: Option<Line>,
    marker: Option<Marker>,
    fill: Option<Json>,
    fillcolor: Option<Json>,
    width: Option<Json>,
    rest: map<string, Json>)

  /**
   * A chart's `plotly_json`. An entry of `data` is None when it is JSON `null`; an absent
   * `layout` is the empty map (spreading `undefined` contributes no keys). `rest` never holds
   * `data` or `layout`.
   */
  datatype PlotSpec = PlotSpec(
    data: Option<seq<Option<Trace>>>,
    layout: map<string, Json>,
    rest: map<string, Json>)

  /** The TypeError thrown when the effect reads a property of a `null` entry of `data`. */
  datatype TypeError = NullTrace

  const BarColorDefault := "#3b82f6"
  const AreaFillDefault := "rgba(59, 130, 246, 0.3)"
  const AreaFillSuffix := "50"

  // ---------------------------------------------------------------------------------------
  // The date heuristic

  predicate IsDigit(c: char) {
    '0' <= c <= '9'
  }

  /** The ten characters of `s` from `i` on read `dddd-dd-dd` (`\d` is an ASCII digit). */
  predicate DateAt(s: string, i: nat)
    requires i + 10 <= |s|
  {
    && IsDigit(s[i]) && IsDigit(s[i + 1]) && IsDigit(s[i + 2]) && IsDigit(s[i + 3])
    && s[i + 4] == '-'
    && IsDigit(s[i + 5]) && IsDigit(s[i + 6])
    && s[i + 7] == '-'
    && IsDigit(s[i + 8]) && IsDigit(s[i + 9])
  }

  /** Tries the unanchored pattern at every start position from `from` on. */
  function MatchFrom(s: string, from: nat): bool
    decreases |s| - from
  {
    if from + 10 > |s| then false
    else DateAt(s, from) || MatchFrom(s, from + 1)
  }

  lemma {:induction false} MatchFromFindsDate(s: string, from: nat)
    ensures MatchFrom(s, from) <==> exists i :: from <= i && i + 10 <= |s| && DateAt(s, i)
    decreases |s| - from
  {
    if from + 10 <= |s| {
      MatchFromFindsDate(s, from + 1);
      if DateAt(s, from) {
        assert exists i :: from <= i && i + 10 <= |s| && DateAt(s, i);
      } else {
        forall i | from <= i && i + 10 <= |s| && DateAt(s, i) ensures from + 1 <= i {
          assert i != from;
        }
      }
    }
  }

  /** `s.match(/\d{4}-\d{2}-\d{2}/)` is truthy: the pattern occurs somewhere in `s`. */
  function ContainsDate(s: string): (r: bool)
    ensures r <==> exists i :: 0 <= i && i + 10 <= |s| && DateAt(s, i)
  {
    MatchFromFindsDate(s, 0);
    MatchFrom(s, 0)
  }

  /**
   * The test inside `some`: `trace.x` is truthy, non-empty, and its first element is a string
   * containing the date pattern. Only an array `x` can pass: the first element of a string `x`
   * is a single character, too short for the ten-character pattern.
   */
  predicate IsDated(t: Trace)
    ensures IsDated(t) <==>
      && t.x.Some? && t.x.value.Arr? && |t.x.value.items| > 0 && t.x.value.items[0].Str?
      && exists i :: 0 <= i && i + 10 <= |t.x.value.items[0].s| && DateAt(t.x.value.items[0].s, i)
  {
    t.x.Some? && t.x.value.Arr? && |t.x.value.items| > 0
    && t.x.value.items[0].Str? && ContainsDate(t.x.value.items[0].s)
  }

  predicate NullFree(items: seq<Option<Trace>>) {
    forall i :: 0 <= i < |items| ==> items[i].Some?
  }

  predicate AnyDated(items: seq<Option<Trace>>) {
    exists i :: 0 <= i < |items| && items[i].Some? && IsDated(items[i].value)
  }

  /** `data.some(trace => ...)`: stops at the first dated trace; reading `x` of a null entry throws. */
  function SomeDated(items: seq<Option<Trace>>): (r: Result<bool, TypeError>)
    ensures NullFree(items) ==> r == Success(AnyDated(items))
    ensures r.Failure? ==> !NullFree(items)
  {
    if items == [] then Success(false)
    else if items[0].None? then Failure(NullTrace)
    else if IsDated(items[0].value) then Success(true)
    else
      var r := SomeDated(items[1..]);
      assert NullFree(items) ==> NullFree(items[1..]);
      assert AnyDated(items[1..]) ==> AnyDated(items) by {
        if AnyDated(items[1..]) {
          var i :| 0 <= i < |items[1..]| && items[1..][i].Some? && IsDated(items[1..][i].value);
          assert items[i + 1] == items[1..][i];
        }
      }
      assert AnyDated(items) ==> AnyDated(items[1..]) by {
        if AnyDated(items) {
          var i :| 0 <= i < |items| && items[i].Some? && IsDated(items[i].value);
          assert i != 0;
          assert items[1..][i - 1] == items[i];
        }
      }
      r
  }

  // ---------------------------------------------------------------------------------------
  // The rewrites

  /** What the normaliser makes of a trace: the positional policy of the composite transform. */
  datatype Treatment = Bar | Area | SmoothLine

  /** Even positions become bars and odd ones filled splines when the chart is temporal. */
  function TreatmentOf(temporal: bool, index: nat): Treatment {
    if !temporal then SmoothLine
    else if index % 2 == 0 then Bar
    else Area
  }

  /** `trace.line?.color` when it is truthy, that is a non-empty string. */
  function LineColor(t: Trace): Option<string> {
    if t.line.Some? && t.line.value.color.Some? && t.line.value.color.value != "" then t.line.value.color
    else None
  }

  const NoLine := Line(None, None, None, None, map[])
  const NoMarker := Marker(None, None, None, None, map[])

  /** The white one-pixel outline of a bar. */
  const BarOutline := Obj(map["width" := Num(1.0), "color" := Str("#FFFFFF")])

  /** `{...line, width: 3, shape: 'spline', smoothing: 1.3}`. */
  function Smoothed(line: Option<Line>): Line {
    line.GetOr(NoLine).(width := Some(Num(3.0)), shape := Some(Str("spline")), smoothing := Some(Num(1.3)))
  }

  /** `{...marker, size: 8}`. */
  function Enlarged(marker: Option<Marker>): Marker {
    marker.GetOr(NoMarker).(size := Some(Num(8.0)))
  }

  /** A bar in the line colour (or the default blue), 80% opaque, white-outlined, 0.7 wide. */
  function AsBar(t: Trace): (b: Trace)
    ensures b.x == t.x && b.y == t.y && b.line == t.line && b.fill == t.fill && b.fillcolor == t.fillcolor && b.rest == t.rest
    ensures b.kind == Some(Str("bar")) && b.width == Some(Num(0.7))
    ensures b.marker.Some? && b.marker.value.rest == map[] && b.marker.value.size.None?
    ensures LineColor(t).Some? ==> b.marker.value.color == Some(Str(LineColor(t).value))
    ensures LineColor(t).None? ==> b.marker.value.color == Some(Str(BarColorDefault))
  {
    var marker := Marker(Some(Str(LineColor(t).GetOr(BarColorDefault))), Some(Num(0.8)), None, Some(BarOutline), map[]);
    t.(kind := Some(Str("bar")), marker := Some(marker), width := Some(Num(0.7)))
  }

  /** A filled spline to the x axis, its fill the line colour with alpha `50` (or the default). */
  function AsArea(t: Trace): (a: Trace)
    ensures a.x == t.x && a.y == t.y && a.width == t.width && a.rest == t.rest
    ensures a.kind == Some(Str("scatter")) && a.fill == Some(Str("tozeroy"))
    ensures LineColor(t).Some? ==> a.fillcolor == Some(Str(LineColor(t).value + AreaFillSuffix))
    ensures LineColor(t).None? ==> a.fillcolor == Some(Str(AreaFillDefault))
    ensures a.line.Some? && a.line.value.shape == Some(Str("spline")) && a.line.value.color == t.line.GetOr(NoLine).color
    ensures a.marker.Some? && a.marker.value.size == Some(Num(8.0))
  {
    var fillcolor := if LineColor(t).Some? then LineColor(t).value + AreaFillSuffix else AreaFillDefault;
    t.(kind := Some(Str("scatter")), fill := Some(Str("tozeroy")), fillcolor := Some(Str(fillcolor)),
       line := Some(Smoothed(t.line)), marker := Some(Enlarged(t.marker)))
  }

  /** A smoothed line; its `color` is the original one when truthy and dropped otherwise. */
  function AsSmoothLine(t: Trace): (l: Trace)
    ensures l.x == t.x && l.y == t.y && l.kind == t.kind && l.fill == t.fill && l.fillcolor == t.fillcolor
    ensures l.width == t.width && l.rest == t.rest
    ensures l.line.Some? && l.line.value.shape == Some(Str("spline")) && l.line.value.color == LineColor(t)
    ensures l.line.value.rest == t.line.GetOr(NoLine).rest
    ensures l.marker.Some? && l.marker.value.size == Some(Num(8.0))
  {
    t.(line := Some(Smoothed(t.line).(color := LineColor(t))), marker := Some(Enlarged(t.marker)))
  }

  function Apply(treatment: Treatment, t: Trace): Trace {
    match treatment
    case Bar => AsBar(t)
    case Area => AsArea(t)
    case SmoothLine => AsSmoothLine(t)
  }

  /**
   * `data.map((trace, index) => ...)` over the entries from index `from` on; the callback reads
   * `trace.line` first, so a null entry throws.
   */
  function RewriteFrom(items: seq<Option<Trace>>, temporal: bool, from: nat): (r: Result<seq<Option<Trace>>, TypeError>)
    ensures r.Success? ==> |r.value| == |items| && NullFree(r.value)
    ensures r.Failure? ==> exists i :: 0 <= i < |items| && items[i].None?
    decreases |items|
  {
    if items == [] then Success([])
    else if items[0].None? then Failure(NullTrace)
    else
      match RewriteFrom(items[1..], temporal, from + 1)
      case Failure(e) => Failure(e)
      case Success(tail) => Success([Some(Apply(TreatmentOf(temporal, from), items[0].value))] + tail)
  }

  lemma {:induction false} RewriteFromSpec(items: seq<Option<Trace>>, temporal: bool, from: nat)
    ensures RewriteFrom(items, temporal, from).Success? <==> NullFree(items)
    ensures RewriteFrom(items, temporal, from).Success? ==>
      var out := RewriteFrom(items, temporal, from).value;
      && |out| == |items|
      && forall k :: 0 <= k < |items| ==> out[k] == Some(Apply(TreatmentOf(temporal, from + k), items[k].value))
    decreases |items|
  {
    if items != [] {
      RewriteFromSpec(items[1..], temporal, from + 1);
      if items[0].Some? && NullFree(items[1..]) {
        assert NullFree(items) by {
          forall i | 0 <= i < |items| ensures items[i].Some? {
            if i > 0 { assert items[i] == items[1..][i - 1]; }
          }
        }
        var out := RewriteFrom(items, temporal, from).value;
        forall k | 0 <= k < |items|
          ensures out[k] == Some(Apply(TreatmentOf(temporal, from + k), items[k].value))
        {
          if k > 0 { assert items[k] == items[1..][k - 1]; }
        }
      } else if items[0].Some? {
        var i :| 0 <= i < |items[1..]| && items[1..][i].None?;
        assert items[i + 1].None?;
      }
    }
  }

  // ---------------------------------------------------------------------------------------
  // The normaliser

  /**
   * The effect body from the deep copy to the assignment of `data`: charts not declared `line`,
   * and specifications without `data`, come out as they went in; a null entry in the `data`
   * of a line chart throws.
   */
  function Normalize(chartKind: string, spec: PlotSpec): (r: Result<PlotSpec, TypeError>)
    ensures chartKind != "line" || spec.data.None? ==> r == Success(spec)
    ensures r.Failure? <==> chartKind == "line" && spec.data.Some? && !NullFree(spec.data.value)
    ensures r.Success? ==> r.value.layout == spec.layout && r.value.rest == spec.rest
    ensures r.Success? ==> r.value.data.Some? == spec.data.Some?
  {
    if chartKind != "line" || spec.data.None? then Success(spec)
    else
      var items := spec.data.value;
      RewriteFromSpec(items, true, 0);
      RewriteFromSpec(items, false, 0);
      match SomeDated(items)
      case Failure(e) => Failure(e)
      case Success(hasDates) =>
        match RewriteFrom(items, hasDates, 0)
        case Failure(e) => Failure(e)
        case Success(traces) => Success(spec.(data := Some(traces)))
  }

  /** The traces the normaliser produces for a line chart whose `data` has no null entry. */
  lemma NormalizedTraces(spec: PlotSpec)
    requires spec.data.Some? && NullFree(spec.data.value)
    ensures Normalize("line", spec).Success?
    ensures var out := Normalize("line", spec).value.data.value;
      && |out| == |spec.data.value|
      && forall k :: 0 <= k < |out| ==>
           out[k] == Some(Apply(TreatmentOf(AnyDated(spec.data.value), k), spec.data.value[k].value))
  {
    var items := spec.data.value;
    var hasDates := AnyDated(items);
    assert SomeDated(items) == Success(hasDates);
    RewriteFromSpec(items, hasDates, 0);
    var traces := RewriteFrom(items, hasDates, 0).value;
    assert Normalize("line", spec) == Success(spec.(data := Some(traces)));
  }

  /** Rewriting keeps the number and order of the traces and each trace's x, y and unnamed keys. */
  lemma NormalizeKeepsData(chartKind: string, spec: PlotSpec)
    requires Normalize(chartKind, spec).Success? && spec.data.Some?
    ensures var out := Normalize(chartKind, spec).value.data.value;
      && |out| == |spec.data.value|
      && forall k :: 0 <= k < |out| ==>
           out[k].Some? == spec.data.value[k].Some?
           && (out[k].Some? ==>
                 out[k].value.x == spec.data.value[k].value.x
                 && out[k].value.y == spec.data.value[k].value.y
                 && out[k].value.rest == spec.data.value[k].value.rest)
  {
    if chartKind == "line" {
      NormalizedTraces(spec);
    }
  }

  /** Temporal line chart, even index: a bar whose colour comes from the line, with the old marker dropped. */
  lemma TemporalEvenBecomesBar(spec: PlotSpec, k: nat)
    requires spec.data.Some? && NullFree(spec.data.value) && AnyDated(spec.data.value)
    requires k < |spec.data.value| && k % 2 == 0
    ensures Normalize("line", spec).Success?
    ensures var t := spec.data.value[k].value;
      var out := Normalize("line", spec).value.data.value;
      && k < |out| && out[k].Some?
      && out[k].value.kind == Some(Str("bar"))
      && out[k].value.width == Some(Num(0.7))
      && out[k].value.marker == Some(Marker(
           Some(Str(if t.line.Some? && t.line.value.color.Some? && t.line.value.color.value != ""
                    then t.line.value.color.value else BarColorDefault)),
           Some(Num(0.8)), None, Some(BarOutline), map[]))
      && out[k].value.line == t.line
      && out[k].value.fill == t.fill && out[k].value.fillcolor == t.fillcolor
  {
    NormalizedTraces(spec);
  }

  /** Temporal line chart, odd index: a filled spline area whose fill colour derives from the line. */
  lemma TemporalOddBecomesArea(spec: PlotSpec, k: nat)
    requires spec.data.Some? && NullFree(spec.data.value) && AnyDated(spec.data.value)
    requires k < |spec.data.value| && k % 2 == 1
    ensures Normalize("line", spec).Success?
    ensures var t := spec.data.value[k].value;
      var out := Normalize("line", spec).value.data.value;
      var line := t.line.GetOr(NoLine);
      var marker := t.marker.GetOr(NoMarker);
      && k < |out| && out[k].Some?
      && out[k].value.kind == Some(Str("scatter"))
      && out[k].value.fill == Some(Str("tozeroy"))
      && out[k].value.fillcolor == Some(Str(if line.color.Some? && line.color.value != ""
                                            then line.color.value + "50" else AreaFillDefault))
      && out[k].value.line == Some(Line(line.color, Some(Num(3.0)), Some(Str("spline")), Some(Num(1.3)), line.rest))
      && out[k].value.marker == Some(Marker(marker.color, marker.opacity, Some(Num(8.0)), marker.outline, marker.rest))
      && out[k].value.width == t.width
  {
    NormalizedTraces(spec);
  }

  /** Line chart without dates: every trace becomes a smoothed line; an empty colour becomes absent. */
  lemma NonTemporalBecomesSmoothLine(spec: PlotSpec, k: nat)
    requires spec.data.Some? && NullFree(spec.data.value) && !AnyDated(spec.data.value)
    requires k < |spec.data.value|
    ensures Normalize("line", spec).Success?
    ensures var t := spec.data.value[k].value;
      var out := Normalize("line", spec).value.data.value;
      var line := t.line.GetOr(NoLine);
      var marker := t.marker.GetOr(NoMarker);
      && k < |out| && out[k].Some?
      && out[k].value.line == Some(Line(if line.color == Some("") then None else line.color,
                                        Some(Num(3.0)), Some(Str("spline")), Some(Num(1.3)), line.rest))
      && out[k].value.marker == Some(Marker(marker.color, marker.opacity, Some(Num(8.0)), marker.outline, marker.rest))
      && out[k].value.(line := t.line, marker := t.marker) == t
  {
    NormalizedTraces(spec);
  }

  /** Only the first x value of each trace is looked at: later date strings do not make a chart temporal. */
  lemma OnlyFirstXCounts(t: Trace, rest: seq<Json>)
    requires t.x == Some(Arr([Num(1.0)] + rest))
    ensures !IsDated(t)
  {
  }

  /** Date detection is unanchored: a date inside a longer label is found. */
  lemma DateInsideLabel()
    ensures ContainsDate("Q1 2024-01-15 close")
    ensures !ContainsDate("2024-1-15")
  {
    assert DateAt("Q1 2024-01-15 close", 3);
  }

  /** A two-point date series in a line chart becomes one bar trace. */
  lemma DateSeriesBecomesBar()
    ensures var t := Trace(Some(Arr([Str("2024-01-01"), Str("2024-02-01")])), Some(Arr([Num(1.0), Num(2.0)])),
                           None, None, None, None, None, None, map[]);
      var spec := PlotSpec(Some([Some(t)]), map[], map[]);
      && Normalize("line", spec).Success?
      && Normalize("line", spec).value.data.value == [Some(AsBar(t))]
  {
    var t := Trace(Some(Arr([Str("2024-01-01"), Str("2024-02-01")])), Some(Arr([Num(1.0), Num(2.0)])),
                   None, None, None, None, None, None, map[]);
    var spec := PlotSpec(Some([Some(t)]), map[], map[]);
    assert DateAt("2024-01-01", 0);
    assert IsDated(t);
    NormalizedTraces(spec);
  }
}
