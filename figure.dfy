/**
 * The Plotly objects the library hands around, reduced to what it does with
 * them: a data frame is known by its columns, and a figure remembers the
 * Plotly Express call that created it (which fixes the `mode` of its traces),
 * every `update_traces` patch applied to it, its layout (one entry per layout
 * property the library sets, so that a later `update_layout` overwrites an
 * earlier one property by property) and the themes applied to it whose
 * content lies outside the model. A trace patch is checked against Plotly's
 * property names for scatter markers, as `update_traces` does.
 */
module Figures {
  import opened Values

  /** A `pandas.DataFrame`, known by its column names. */
  datatype Frame = Frame(columns: seq<string>)

  /** The Plotly Express function that created a figure. */
  datatype Express = Scatter | Line | Bar | Box

  /** `px.<kind>(data, **args)`. */
  datatype ExpressCall = ExpressCall(kind: Express, data: Frame, args: Args)

  /** `selector=dict(mode=<mode>)`: the library selects traces by their mode only. */
  datatype Selector = ModeIs(mode: string)

  /** One `fig.update_traces(<patch>, selector=<selector>)`. */
  datatype TracePatch = TracePatch(patch: map<string, Value>, selector: Selector)

  /** The keyword is passed with a truthy value (`args.get(k)` in Plotly Express). */
  predicate Given(args: Args, k: string) {
    k in args && Truthy(args[k])
  }

  /**
   * The `mode` Plotly Express gives every trace of a call. A scatter draws
   * markers, with text when `text` is set; a line draws lines, with markers
   * when `text`, `symbol` or `markers` is set and with text when `text` is;
   * bar and box traces have no `mode` property (None here).
   */
  function TraceMode(call: ExpressCall): (m: Value)
    ensures call.kind == Scatter ==> (m == Str("markers") <==> !Given(call.args, "text"))
    ensures call.kind == Scatter ==> (m == Str("markers+text") <==> Given(call.args, "text"))
    ensures call.kind == Line ==> m.Str? && |m.s| >= 5 && m.s[..5] == "lines"
    ensures call.kind == Bar || call.kind == Box ==> m == None
  {
    var args := call.args;
    match call.kind
    case Scatter => Str(if Given(args, "text") then "markers+text" else "markers")
    case Line =>
      var markers := Given(args, "text") || Given(args, "symbol") || Given(args, "markers");
      Str("lines" + (if markers then "+markers" else "") + (if Given(args, "text") then "+text" else ""))
    case Bar => None
    case Box => None
  }

  /** A trace is selected when it has a `mode` equal to the selector's. */
  predicate Selects(selector: Selector, mode: Value) {
    mode == Str(selector.mode)
  }

  /** The properties of a scatter trace's `marker` (`plotly.graph_objs.scatter.Marker`). */
  const MarkerProperties: set<string> := MarkerScales + MarkerShapes

  /** The colour-scale properties of a marker. */
  const MarkerScales: set<string> := {
    "autocolorscale", "cauto", "cmax", "cmid", "cmin", "color", "coloraxis", "colorbar",
    "colorscale", "colorsrc", "reversescale", "showscale"
  }

  /** The other properties of a marker: its shape, size, outline and opacity. */
  const MarkerShapes: set<string> := {
    "angle", "angleref", "anglesrc", "gradient", "line", "maxdisplayed", "opacity", "opacitysrc",
    "size", "sizemin", "sizemode", "sizeref", "sizesrc", "standoff", "standoffsrc", "symbol", "symbolsrc"
  }

  /** The properties of a marker's outline (`plotly.graph_objs.scatter.marker.Line`). */
  const MarkerLineProperties: set<string> := {
    "autocolorscale", "cauto", "cmax", "cmid", "cmin", "color", "coloraxis", "colorscale",
    "colorsrc", "reversescale", "width", "widthsrc"
  }

  /** Plotly's ValueError for names that are not properties of the object they are given to. */
  datatype PropertyError = InvalidProperties(owner: string, names: set<string>)

  /** The keys of a dictionary value that are not among the given properties. */
  function Unknown(v: Value, properties: set<string>): (u: set<string>)
    ensures v.Dict? ==> forall n :: n in u <==> n in v.entries && n !in properties
    ensures !v.Dict? ==> u == {}
  {
    if v.Dict? then set n | n in v.entries && n !in properties else {}
  }

  /**
   * How `update_traces` checks a patch against a scatter trace: the keys of
   * `marker` first, then, when they all exist, those of `marker.line`; the
   * first object with unknown keys raises ValueError naming all of them.
   */
  function CheckPatch(patch: map<string, Value>): (r: Result<(), PropertyError>)
    ensures var marker := if "marker" in patch then patch["marker"] else None;
            var line := if marker.Dict? && "line" in marker.entries then marker.entries["line"] else None;
            && (r.Ok? <==> Unknown(marker, MarkerProperties) == {} && Unknown(line, MarkerLineProperties) == {})
            && (r.Err? && Unknown(marker, MarkerProperties) != {} ==>
                  r.error == InvalidProperties("scatter.Marker", Unknown(marker, MarkerProperties)))
            && (r.Err? && Unknown(marker, MarkerProperties) == {} ==>
                  r.error == InvalidProperties("scatter.marker.Line", Unknown(line, MarkerLineProperties)))
  {
    var marker := if "marker" in patch then patch["marker"] else None;
    var line := if marker.Dict? && "line" in marker.entries then marker.entries["line"] else None;
    if Unknown(marker, MarkerProperties) != {} then
      Err(InvalidProperties("scatter.Marker", Unknown(marker, MarkerProperties)))
    else if Unknown(line, MarkerLineProperties) != {} then
      Err(InvalidProperties("scatter.marker.Line", Unknown(line, MarkerLineProperties)))
    else Ok(())
  }

  /**
   * A layout property, named after its keyword argument of `update_layout`
   * (`xaxis_title` is `layout.xaxis.title`): those the library sets, and any
   * other by its keyword.
   */
  datatype LayoutKey =
    | TitleText | TitleSubtitleText | XaxisTitle | YaxisTitle | Height | Width | Template
    | XaxisType | YaxisType | XaxisRange | YaxisRange | Hovermode | Legend
    | Other(keyword: string)
  {
    function Keyword(): string {
      match this
      case TitleText => "title_text"
      case TitleSubtitleText => "title_subtitle_text"
      case XaxisTitle => "xaxis_title"
      case YaxisTitle => "yaxis_title"
      case Height => "height"
      case Width => "width"
      case Template => "template"
      case XaxisType => "xaxis_type"
      case YaxisType => "yaxis_type"
      case XaxisRange => "xaxis_range"
      case YaxisRange => "yaxis_range"
      case Hovermode => "hovermode"
      case Legend => "legend"
      case Other(k) => k
    }
  }

  type Layout = map<LayoutKey, Value>

  /** Successive `update_layout` calls: the last one to set a property wins. */
  lemma LastWriteWins(before: Layout, patch: Layout, key: LayoutKey)
    ensures key in before + patch <==> key in before || key in patch
    ensures key in patch ==> (before + patch)[key] == patch[key]
    ensures key !in patch && key in before ==> (before + patch)[key] == before[key]
  {
  }

  /**
   * Two patches that differ only in properties a later patch sets again
   * leave the same layout behind.
   */
  lemma OverwrittenFirstPass(before: Layout, first: Layout, first': Layout, second: Layout)
    requires first.Keys == first'.Keys
    requires forall key :: key in first && key !in second ==> first'[key] == first[key]
    ensures before + first' + second == before + first + second
  {
  }

  /** A theming function applied to a figure whose effect is not modelled. */
  datatype OpaqueTheme = LineTheme | BarTheme | BoxTheme

  /** A `plotly.graph_objects.Figure`. */
  class Figure {
    const origin: ExpressCall
    var tracePatches: seq<TracePatch>
    var layout: Layout
    var themes: seq<OpaqueTheme>

    /** The figure a Plotly Express call returns, before any styling. */
    constructor (origin: ExpressCall)
      ensures this.origin == origin
      ensures tracePatches == [] && layout == map[] && themes == []
    {
      this.origin := origin;
      tracePatches := [];
      layout := map[];
      themes := [];
    }

    /**
     * `fig.update_traces(...)`: when the selector picks the figure's traces,
     * Plotly checks the patch on them and raises ValueError before changing
     * anything; otherwise the patch is recorded. The layout is untouched.
     */
    method UpdateTraces(patch: map<string, Value>, selector: Selector) returns (r: Result<(), PropertyError>)
      modifies this
      ensures r.Ok? <==> !Selects(selector, TraceMode(origin)) || CheckPatch(patch).Ok?
      ensures r.Err? ==> r.error == CheckPatch(patch).error
      ensures tracePatches == if r.Ok? then old(tracePatches) + [TracePatch(patch, selector)] else old(tracePatches)
      ensures layout == old(layout) && themes == old(themes)
    {
      if Selects(selector, TraceMode(origin)) {
        var checked := CheckPatch(patch);
        if checked.Err? {
          return Err(checked.error);
        }
      }
      tracePatches := tracePatches + [TracePatch(patch, selector)];
      r := Ok(());
    }

    /** `fig.update_layout(...)`: every given key is overwritten, every other kept. */
    method UpdateLayout(patch: Layout)
      modifies this
      ensures layout == old(layout) + patch
      ensures tracePatches == old(tracePatches) && themes == old(themes)
    {
      layout := layout + patch;
    }

    /** A theming call whose content is not modelled: it is recorded, nothing else. */
    method ApplyOpaque(theme: OpaqueTheme)
      modifies this
      ensures themes == old(themes) + [theme]
      ensures tracePatches == old(tracePatches) && layout == old(layout)
    {
      themes := themes + [theme];
    }
  }
}
