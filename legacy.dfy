/**
 * The older distribution plotting API: `create_scatter_plot` validates its
 * keyword arguments, converts the configuration into a `px.scatter` call,
 * styles the figure with `apply_plot_theme` and saves it with the core
 * `save_plot` when a save path is given. It checks no columns.
 */
module LegacyScatter {
  import opened Values
  import opened Text
  import opened Figures
  import opened Exports
  import Schemas
  import Theming
  import LegacyScatterConfig
  import CoreSaver

  /** Which configuration field each keyword argument of `px.scatter` is taken from. */
  const Renaming: map<string, string> := map[
    "x" := "x", "y" := "y", "color" := "group", "size" := "size", "symbol" := "symbol",
    "text" := "text", "hover_data" := "hover_cols", "color_discrete_map" := "colors",
    "trendline" := "trendline"
  ]

  /** The arguments `create_plotly_scatter` passes to `px.scatter`. */
  function ScatterArgs(c: Config): map<string, Value> {
    map[
      "x" := c.Field("x"), "y" := c.Field("y"), "color" := c.Field("group"),
      "size" := c.Field("size"), "symbol" := c.Field("symbol"), "text" := c.Field("text"),
      "hover_data" := c.Field("hover_cols"), "color_discrete_map" := c.Field("colors"),
      "trendline" := c.Field("trendline")
    ]
  }

  /** Exactly the renamed fields are passed, None values included. */
  lemma ArgsFollowRenaming(c: Config)
    ensures forall key :: key in ScatterArgs(c) <==> key in Renaming
    ensures forall key :: key in Renaming ==> ScatterArgs(c)[key] == c.Field(Renaming[key])
  {
  }

  /** The column arguments, read off one by one. */
  lemma ColumnArgs(c: Config)
    ensures "x" in ScatterArgs(c) && ScatterArgs(c)["x"] == c.Field("x")
    ensures "y" in ScatterArgs(c) && ScatterArgs(c)["y"] == c.Field("y")
    ensures "color" in ScatterArgs(c) && ScatterArgs(c)["color"] == c.Field("group")
    ensures "hover_data" in ScatterArgs(c) && ScatterArgs(c)["hover_data"] == c.Field("hover_cols")
  {
  }

  /** The layout fields of the configuration are not among the renamed ones. */
  lemma LayoutFieldsUnused()
    ensures forall key :: key in Renaming ==>
              Renaming[key] !in {"title", "x_title", "y_title", "height", "width"}
  {
  }

  /**
   * For a validated configuration: the columns reach `px.scatter` as given;
   * `group` becomes `color` and `hover_cols` becomes `hover_data`, each with
   * its default (None, the empty list) when omitted.
   */
  lemma ValidatedArgs(k: Args, c: Config)
    requires LegacyScatterConfig.Validate(k) == Ok(c)
    ensures "x" in k && ScatterArgs(c)["x"] == k["x"]
    ensures "y" in k && ScatterArgs(c)["y"] == k["y"]
    ensures ScatterArgs(c)["color"] == (if "group" in k then k["group"] else None)
    ensures ScatterArgs(c)["hover_data"] == (if "hover_cols" in k then k["hover_cols"] else List([]))
  {
    ColumnArgs(c);
    LegacyScatterConfig.ValidateKeepsModel(k);
    LegacyScatterConfig.DeclaresX();
    LegacyScatterConfig.DeclaresY();
    LegacyScatterConfig.DeclaresGroup();
    LegacyScatterConfig.DeclaresHoverCols();
    Schemas.FieldHolds(LegacyScatterConfig.Model, k, "x");
    Schemas.FieldHolds(LegacyScatterConfig.Model, k, "y");
    Schemas.FieldHolds(LegacyScatterConfig.Model, k, "group");
    Schemas.FieldHolds(LegacyScatterConfig.Model, k, "hover_cols");
  }

  /** `create_plotly_scatter(data, config)`: a new figure made by `px.scatter`. */
  method Convert(data: Frame, c: Config) returns (fig: Figure)
    ensures fresh(fig)
    ensures fig.origin == ExpressCall(Express.Scatter, data, ScatterArgs(c))
    ensures fig.tracePatches == [] && fig.layout == map[] && fig.themes == []
  {
    fig := new Figure(ExpressCall(Express.Scatter, data, ScatterArgs(c)));
  }

  /** What `apply_plot_theme` reads as column names. */
  predicate PlotReady(c: Config) {
    c.Field("x").Str? && c.Field("y").Str?
  }

  /** A validated configuration holds both columns as strings. */
  lemma ValidatedIsPlotReady(k: Args, c: Config)
    requires LegacyScatterConfig.Validate(k) == Ok(c)
    ensures PlotReady(c)
  {
    LegacyScatterConfig.ValidateKeepsModel(k);
    LegacyScatterConfig.DeclaresX();
    LegacyScatterConfig.DeclaresY();
    Schemas.FieldHolds(LegacyScatterConfig.Model, k, "x");
    Schemas.FieldHolds(LegacyScatterConfig.Model, k, "y");
  }

  /** The constant marker styling of `apply_plot_theme`. */
  const PlotMarkerPatch := map["marker" := Dict(map[
    "opacity" := Real(0.8),
    "line" := Dict(map["width" := Real(0.5), "color" := Str("DarkSlateGrey")])
  ])]

  /** Every key of the legacy marker patch is a marker or outline property, so Plotly accepts it. */
  lemma PlotMarkerPatchAccepted()
    ensures CheckPatch(PlotMarkerPatch) == Ok(())
  {
    var marker := PlotMarkerPatch["marker"];
    assert "opacity" in MarkerShapes && "line" in MarkerShapes;
    assert "width" in MarkerLineProperties && "color" in MarkerLineProperties;
    assert Unknown(marker, MarkerProperties) == {};
    assert Unknown(marker.entries["line"], MarkerLineProperties) == {};
  }

  /** The arguments of the one `update_layout` of `apply_plot_theme`. */
  function PlotThemeLayout(c: Config): (l: Layout)
    requires PlotReady(c)
    ensures l.Keys == Theming.SecondKeys
  {
    map[
      TitleText := c.Field("title"),
      XaxisTitle := Or(c.Field("x_title"), Str(Title(c.Field("x").s))),
      YaxisTitle := Or(c.Field("y_title"), Str(Title(c.Field("y").s))),
      Height := c.Field("height"),
      Width := c.Field("width"),
      Template := Str("plotly_white"),
      Legend := Theming.LegendStyle,
      Hovermode := Str("closest")
    ]
  }

  /** `apply_plot_theme(fig, config)`: one trace patch and one layout update; the figure is returned. */
  method ApplyPlotTheme(fig: Figure, c: Config) returns (r: Figure)
    requires PlotReady(c)
    modifies fig
    ensures r == fig
    ensures fig.tracePatches == old(fig.tracePatches) + [TracePatch(PlotMarkerPatch, Theming.MarkersOnly)]
    ensures fig.layout == old(fig.layout) + PlotThemeLayout(c)
    ensures fig.themes == old(fig.themes)
  {
    PlotMarkerPatchAccepted();
    var _ := fig.UpdateTraces(PlotMarkerPatch, Theming.MarkersOnly);
    fig.UpdateLayout(PlotThemeLayout(c));
    r := fig;
  }

  /**
   * An axis title is the configured one when it is truthy and the title-cased
   * column name otherwise, so an empty title given explicitly is replaced too.
   */
  lemma AxisTitleFallback(c: Config)
    requires PlotReady(c)
    ensures Truthy(c.Field("x_title")) ==> PlotThemeLayout(c)[XaxisTitle] == c.Field("x_title")
    ensures !Truthy(c.Field("x_title")) ==> PlotThemeLayout(c)[XaxisTitle] == Str(Title(c.Field("x").s))
    ensures Truthy(c.Field("y_title")) ==> PlotThemeLayout(c)[YaxisTitle] == c.Field("y_title")
    ensures !Truthy(c.Field("y_title")) ==> PlotThemeLayout(c)[YaxisTitle] == Str(Title(c.Field("y").s))
  {
  }

  /** The properties of `apply_plot_theme` that do not depend on the columns. */
  lemma PlotThemeFields(c: Config)
    requires PlotReady(c)
    ensures PlotThemeLayout(c)[TitleText] == c.Field("title")
    ensures PlotThemeLayout(c)[Height] == c.Field("height") && PlotThemeLayout(c)[Width] == c.Field("width")
    ensures PlotThemeLayout(c)[Template] == Str("plotly_white")
  {
  }

  /**
   * With the layout arguments omitted, the validated defaults reach the
   * layout: the "Scatter Plot" title, 600 by 800 pixels, the title-cased
   * column names on the axes, and always the white template.
   */
  lemma DefaultLayout(k: Args, c: Config)
    requires LegacyScatterConfig.Validate(k) == Ok(c)
    requires "title" !in k && "height" !in k && "width" !in k && "x_title" !in k && "y_title" !in k
    ensures PlotReady(c)
    ensures PlotThemeLayout(c)[TitleText] == Str("Scatter Plot")
    ensures PlotThemeLayout(c)[Height] == Int(600) && PlotThemeLayout(c)[Width] == Int(800)
    ensures PlotThemeLayout(c)[XaxisTitle] == Str(Title(c.Field("x").s))
    ensures PlotThemeLayout(c)[YaxisTitle] == Str(Title(c.Field("y").s))
    ensures PlotThemeLayout(c)[Template] == Str("plotly_white")
  {
    ValidatedIsPlotReady(k, c);
    LegacyScatterConfig.LayoutDefaults(k, c);
    LegacyScatterConfig.ExtraDefaults(k, c);
    PlotThemeFields(c);
    AxisTitleFallback(c);
  }

  /** With both titles declared, the scatter theme's second patch reads them as fields. */
  lemma SecondPassReadsFields(c: Config)
    requires Theming.ThemeReady(c) && "x_title" in c.fields && "y_title" in c.fields
    ensures Theming.SecondLayout(c) == Ok(map key | key in Theming.SecondKeys ::
              Theming.SecondValue(c, c.Field("x_title"), c.Field("y_title"), key))
  {
  }

  /** The two themes agree property by property once the titles are the fields. */
  lemma SecondPassAt(c: Config, key: LayoutKey)
    requires Theming.ThemeReady(c) && key in Theming.SecondKeys
    ensures PlotReady(c)
    ensures Theming.SecondValue(c, c.Field("x_title"), c.Field("y_title"), key) == PlotThemeLayout(c)[key]
  {
  }

  /**
   * The legacy theme's layout is the second `update_layout` of the scatter
   * engine's theme whenever that one can read both titles as declared fields.
   */
  lemma SameAsScatterSecondPass(c: Config)
    requires Theming.ThemeReady(c) && "x_title" in c.fields && "y_title" in c.fields
    ensures PlotReady(c)
    ensures Theming.SecondLayout(c) == Ok(PlotThemeLayout(c))
  {
    SecondPassReadsFields(c);
    var m := map key | key in Theming.SecondKeys ::
      Theming.SecondValue(c, c.Field("x_title"), c.Field("y_title"), key);
    forall key | key in m ensures m[key] == PlotThemeLayout(c)[key] {
      SecondPassAt(c, key);
    }
    assert m == PlotThemeLayout(c);
  }

  /** What the legacy `create_scatter_plot` raises. */
  datatype LegacyError =
    | Invalid(validation: Schemas.ValidationError)
    | SaveFailed(save: CoreSaver.SaveError)

  /**
   * The core saver's write calls, when the validated figure is saved to a
   * truthy `savePath`; none otherwise.
   */
  function SaveCalls(k: Args, savePath: Value, outcome: Outcome): seq<Call>
    requires savePath.None? || savePath.Str?
  {
    if LegacyScatterConfig.Validate(k).Ok? && Truthy(savePath) then CoreSaver.SavePlot(savePath.s, outcome).calls
    else []
  }

  /** Steps 3 and 4: the converted figure, styled. */
  method StyledFigure(data: Frame, c: Config) returns (fig: Figure)
    requires PlotReady(c)
    ensures fresh(fig)
    ensures fig.origin == ExpressCall(Express.Scatter, data, ScatterArgs(c))
    ensures fig.tracePatches == [TracePatch(PlotMarkerPatch, Theming.MarkersOnly)]
    ensures fig.layout == PlotThemeLayout(c) && fig.themes == []
  {
    fig := Convert(data, c);
    fig := ApplyPlotTheme(fig, c);
  }

  /**
   * `create_scatter_plot(data, save_path, **kwargs)` of the distribution API.
   * `outcome` is how the single write of `save_plot` ends.
   */
  method CreateScatterPlot(data: Frame, savePath: Value, k: Args, outcome: Outcome)
    returns (r: Result<Figure, LegacyError>, calls: seq<Call>)
    requires savePath.None? || savePath.Str?
    ensures calls == SaveCalls(k, savePath, outcome)
    ensures r.Ok? <==> LegacyScatterConfig.Validate(k).Ok? &&
                       (Truthy(savePath) ==> CoreSaver.SavePlot(savePath.s, outcome).result.Ok?)
    ensures LegacyScatterConfig.Validate(k).Err? ==> r == Err(Invalid(LegacyScatterConfig.Validate(k).error))
    ensures LegacyScatterConfig.Validate(k).Ok? && Truthy(savePath) && CoreSaver.SavePlot(savePath.s, outcome).result.Err? ==>
              r == Err(SaveFailed(CoreSaver.SavePlot(savePath.s, outcome).result.error))
    ensures r.Ok? ==>
              var c := LegacyScatterConfig.Validate(k).value;
              && PlotReady(c) && fresh(r.value)
              && r.value.origin == ExpressCall(Express.Scatter, data, ScatterArgs(c))
              && r.value.tracePatches == [TracePatch(PlotMarkerPatch, Theming.MarkersOnly)]
              && r.value.layout == PlotThemeLayout(c) && r.value.themes == []
  {
    var v := LegacyScatterConfig.Validate(k);
    if v.Err? {
      return Err(Invalid(v.error)), [];
    }
    var c := v.value;
    ValidatedIsPlotReady(k, c);
    var fig := StyledFigure(data, c);
    calls := [];
    if Truthy(savePath) {
      var saved := CoreSaver.SavePlot(savePath.s, outcome);
      calls := saved.calls;
      if saved.result.Err? {
        return Err(SaveFailed(saved.result.error)), calls;
      }
    }
    r := Ok(fig);
  }
}
