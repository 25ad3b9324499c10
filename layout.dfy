/**
 * The layout composer of the chart component: the caller's layout overlaid with a fixed set of
 * keys the component owns. The composed layout is kept as its two disjoint parts, the caller's
 * keys that the component does not own and the owned style; `Flatten` turns it back into the
 * single object that `{...callerLayout, <owned keys>}` builds.
 */
module Layout {
  import opened Wrappers
  import opened JsonValues

  /** The top-level layout keys the composer always sets; they replace the caller's values wholesale. */
  const OwnedKeys: set<string> := {
    "autosize", "margin", "paper_bgcolor", "plot_bgcolor", "font", "xaxis", "yaxis",
    "colorway", "legend", "height", "hovermode", "hoverlabel"
  }

  datatype Font = Font(color: string, size: real)
  datatype Margin = Margin(l: real, r: real, b: real, t: real, pad: real)

  /** An axis; `tickformat` and `tickangle` are None when the key is not set (the y axis sets neither). */
  datatype Axis = Axis(
    titleFont: Font,
    tickfont: Font,
    gridcolor: string,
    linecolor: string,
    linewidth: real,
    showgrid: bool,
    zeroline: bool,
    tickformat: Option<string>,
    tickangle: Option<real>)

  datatype Legend = Legend(font: Font, bgcolor: string, bordercolor: string, borderwidth: real)
  datatype HoverLabel = HoverLabel(bgcolor: string, bordercolor: string, font: Font)

  /** The values of the owned keys. */
  datatype Style = Style(
    autosize: bool,
    margin: Margin,
    paperBgcolor: string,
    plotBgcolor: string,
    font: Font,
    xaxis: Axis,
    yaxis: Axis,
    colorway: seq<string>,
    legend: Legend,
    height: real,
    hovermode: string,
    hoverlabel: HoverLabel)

  /** A composed layout: the caller's keys that survive, and the owned style. */
  datatype ComposedLayout = ComposedLayout(passThrough: map<string, Json>, style: Style)

  const White := "#FFFFFF"
  const Transparent := "rgba(0,0,0,0)"

  /** The ten-colour cycle assigned to traces by index. */
  const Colorway: seq<string> := [
    "#3b82f6", "#ef4444", "#10b981", "#f59e0b", "#8b5cf6",
    "#ec4899", "#6366f1", "#14b8a6", "#f97316", "#06b6d4"
  ]

  function FontColor(dark: bool): string {
    if dark then "#FFFFFF" else "#374151"
  }

  function GridColor(dark: bool): string {
    if dark then "rgba(255, 255, 255, 0.3)" else "rgba(0, 0, 0, 0.1)"
  }

  /** The keys both axes share, plus the given tick settings. */
  function AxisFor(dark: bool, tickformat: Option<string>, tickangle: Option<real>): Axis {
    Axis(Font(White, 16.0), Font(White, 14.0), GridColor(dark), White, 2.0, true, false, tickformat, tickangle)
  }

  /** The owned style: month-year ticks at 30 degrees for line charts, no format and angle 0 otherwise. */
  function StyleFor(dark: bool, chartKind: string): (s: Style)
    ensures s.font.color == FontColor(dark) && s.xaxis.gridcolor == GridColor(dark) && s.yaxis.gridcolor == GridColor(dark)
    ensures s.xaxis.tickformat.Some? <==> chartKind == "line"
    ensures |s.colorway| == 10
  {
    var isLine := chartKind == "line";
    Style(
      true,
      Margin(50.0, 50.0, 50.0, 30.0, 4.0),
      Transparent,
      Transparent,
      Font(FontColor(dark), 14.0),
      AxisFor(dark, if isLine then Some("%b %Y") else None, Some(if isLine then 30.0 else 0.0)),
      AxisFor(dark, None, None),
      Colorway,
      Legend(Font(White, 13.0), Transparent, White, 1.0),
      400.0,
      "closest",
      HoverLabel("#1F2937", White, Font(White, 14.0)))
  }

  /** `{...callerLayout, <owned keys>}`: the caller keeps every key the component does not own. */
  function Compose(callerLayout: map<string, Json>, dark: bool, chartKind: string): (r: ComposedLayout)
    ensures r.passThrough.Keys == callerLayout.Keys - OwnedKeys
    ensures forall k :: k in r.passThrough ==> r.passThrough[k] == callerLayout[k]
  {
    ComposedLayout(callerLayout - OwnedKeys, StyleFor(dark, chartKind))
  }

  // ---------------------------------------------------------------------------------------
  // The composed layout as one JSON object

  function FontJson(f: Font): Json {
    Obj(map["color" := Str(f.color), "size" := Num(f.size)])
  }

  function AxisJson(a: Axis): Json {
    var fields := map[
      "title" := Obj(map["font" := FontJson(a.titleFont)]),
      "tickfont" := FontJson(a.tickfont),
      "gridcolor" := Str(a.gridcolor),
      "linecolor" := Str(a.linecolor),
      "linewidth" := Num(a.linewidth),
      "showgrid" := Bool(a.showgrid),
      "zeroline" := Bool(a.zeroline)
    ];
    var withFormat := if a.tickformat.Some? then fields["tickformat" := Str(a.tickformat.value)] else fields;
    Obj(if a.tickangle.Some? then withFormat["tickangle" := Num(a.tickangle.value)] else withFormat)
  }

  function StrArr(items: seq<string>): Json {
    Arr(seq(|items|, i requires 0 <= i < |items| => Str(items[i])))
  }

  /** The owned keys as JSON; exactly the owned keys are set. */
  function StyleJson(s: Style): (m: map<string, Json>)
    ensures m.Keys == OwnedKeys
  {
    map[
      "autosize" := Bool(s.autosize),
      "margin" := Obj(map["l" := Num(s.margin.l), "r" := Num(s.margin.r), "b" := Num(s.margin.b),
                          "t" := Num(s.margin.t), "pad" := Num(s.margin.pad)]),
      "paper_bgcolor" := Str(s.paperBgcolor),
      "plot_bgcolor" := Str(s.plotBgcolor),
      "font" := FontJson(s.font),
      "xaxis" := AxisJson(s.xaxis),
      "yaxis" := AxisJson(s.yaxis),
      "colorway" := StrArr(s.colorway),
      "legend" := Obj(map["font" := FontJson(s.legend.font), "bgcolor" := Str(s.legend.bgcolor),
                          "bordercolor" := Str(s.legend.bordercolor), "borderwidth" := Num(s.legend.borderwidth)]),
      "height" := Num(s.height),
      "hovermode" := Str(s.hovermode),
      "hoverlabel" := Obj(map["bgcolor" := Str(s.hoverlabel.bgcolor), "bordercolor" := Str(s.hoverlabel.bordercolor),
                              "font" := FontJson(s.hoverlabel.font)])
    ]
  }

  function Flatten(l: ComposedLayout): map<string, Json> {
    l.passThrough + StyleJson(l.style)
  }

  /** Dropping the keys the right operand sets does not change an override. */
  lemma OverrideDropsShadowed(m: map<string, Json>, o: map<string, Json>, keys: set<string>)
    requires o.Keys == keys
    ensures (m - keys) + o == m + o
  {
    var lhs := (m - keys) + o;
    var rhs := m + o;
    assert lhs.Keys == rhs.Keys;
    forall k | k in lhs ensures lhs[k] == rhs[k] {
      if k !in o {
        assert k !in keys;
      }
    }
  }

  /** The composed layout is the object spread `{...callerLayout, <owned keys>}`. */
  lemma ComposeIsSpread(callerLayout: map<string, Json>, dark: bool, chartKind: string)
    ensures Flatten(Compose(callerLayout, dark, chartKind)) == callerLayout + StyleJson(StyleFor(dark, chartKind))
  {
    OverrideDropsShadowed(callerLayout, StyleJson(StyleFor(dark, chartKind)), OwnedKeys);
  }

  /** The flat layout: caller keys outside the owned set pass through, owned keys come from the style. */
  lemma FlattenKeys(callerLayout: map<string, Json>, dark: bool, chartKind: string)
    ensures var flat := Flatten(Compose(callerLayout, dark, chartKind));
      && flat.Keys == callerLayout.Keys + OwnedKeys
      && (forall k :: k in callerLayout && k !in OwnedKeys ==> flat[k] == callerLayout[k])
      && (forall k :: k in OwnedKeys ==> flat[k] == StyleJson(StyleFor(dark, chartKind))[k])
  {
    ComposeIsSpread(callerLayout, dark, chartKind);
  }

  // ---------------------------------------------------------------------------------------
  // What the style promises

  /** Whatever the caller's layout holds, the owned part comes out the same; caller axes are discarded. */
  lemma OwnedPartIgnoresCaller(c1: map<string, Json>, c2: map<string, Json>, dark: bool, chartKind: string)
    ensures Compose(c1, dark, chartKind).style == Compose(c2, dark, chartKind).style
    ensures "xaxis" !in Compose(c1, dark, chartKind).passThrough
    ensures "yaxis" !in Compose(c1, dark, chartKind).passThrough
  {
  }

  /** Composing the flat result of a composition again changes nothing. */
  lemma ComposeIdempotent(c: map<string, Json>, dark: bool, chartKind: string)
    ensures var once := Flatten(Compose(c, dark, chartKind));
      Flatten(Compose(once, dark, chartKind)) == once
  {
    var o := StyleJson(StyleFor(dark, chartKind));
    var once := Flatten(Compose(c, dark, chartKind));
    ComposeIsSpread(c, dark, chartKind);
    ComposeIsSpread(once, dark, chartKind);
    assert (c + o) + o == c + o;
  }

  /** Writes the three theme-dependent colours. */
  function Recolor(s: Style, dark: bool): Style {
    s.(font := s.font.(color := FontColor(dark)),
       xaxis := s.xaxis.(gridcolor := GridColor(dark)),
       yaxis := s.yaxis.(gridcolor := GridColor(dark)))
  }

  /** Switching the theme rewrites exactly the font colour and the two grid colours. */
  lemma ThemeChangesOnlyColors(c: map<string, Json>, dark: bool, chartKind: string)
    ensures var r := Compose(c, dark, chartKind);
      var other := Compose(c, !dark, chartKind);
      && r.passThrough == other.passThrough
      && r.style == Recolor(other.style, dark)
      && r.style.font.color != other.style.font.color
      && r.style.xaxis.gridcolor != other.style.xaxis.gridcolor
  {
  }

  /** The theme-dependent values, and the axis fonts that stay white in both themes. */
  lemma ThemeColors(c: map<string, Json>, dark: bool, chartKind: string)
    ensures var s := Compose(c, dark, chartKind).style;
      && s.font.color == (if dark then "#FFFFFF" else "#374151")
      && s.xaxis.gridcolor == (if dark then "rgba(255, 255, 255, 0.3)" else "rgba(0, 0, 0, 0.1)")
      && s.yaxis.gridcolor == s.xaxis.gridcolor
      && s.xaxis.tickfont.color == "#FFFFFF" && s.yaxis.tickfont.color == "#FFFFFF"
      && s.xaxis.titleFont.color == "#FFFFFF" && s.yaxis.titleFont.color == "#FFFFFF"
  {
  }

  /** Tick format `%b %Y` at 30 degrees exactly for line charts; no format and angle 0 otherwise. */
  lemma TickFormatForLineCharts(c: map<string, Json>, dark: bool, chartKind: string)
    ensures var s := Compose(c, dark, chartKind).style;
      && (s.xaxis.tickformat == if chartKind == "line" then Some("%b %Y") else None)
      && (s.xaxis.tickangle == Some(if chartKind == "line" then 30.0 else 0.0))
      && s.yaxis.tickformat == None && s.yaxis.tickangle == None
  {
  }

  /** The theme-independent constants: ten colours, height 400, closest hover, transparent backgrounds. */
  lemma FixedStyle(c: map<string, Json>, dark: bool, chartKind: string)
    ensures var s := Compose(c, dark, chartKind).style;
      && |s.colorway| == 10 && s.colorway[0] == "#3b82f6"
      && s.height == 400.0 && s.hovermode == "closest" && s.autosize
      && s.paperBgcolor == "rgba(0,0,0,0)" && s.plotBgcolor == "rgba(0,0,0,0)"
  {
  }
}
